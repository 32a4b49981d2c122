/** What a run of `create-qflow` leaves behind, for each workflow style. */
module CreateQflowProps {
  import opened FileTree
  import opened CreateQflow
  import DotEnv

  /** Each pass of the cleanup loop removes exactly the listed children of
      `dir` that are files, whether or not they were there. */
  lemma {:induction false} UnlinkEachRemoves(t: Tree, dir: Path, names: seq<string>)
    ensures UnlinkEach(t, dir, names) == Tree(t.files - Children(dir, names), t.dirs)
    decreases |names|
  {
    if names != [] {
      var t1 := TryUnlink(t, dir + [names[0]]);
      UnlinkEachRemoves(t1, dir, names[1..]);
      assert Children(dir, names) == {dir + [names[0]]} + Children(dir, names[1..]);
    }
  }

  /** Deleting a path a second time, ignoring the error, changes nothing. */
  lemma TryUnlinkIdempotent(t: Tree, p: Path)
    ensures TryUnlink(TryUnlink(t, p), p) == TryUnlink(t, p)
  {
  }

  /** Removing a directory a second time, ignoring the error, changes nothing. */
  lemma TryRmdirIdempotent(t: Tree, p: Path)
    ensures TryRmdir(TryRmdir(t, p), p) == TryRmdir(t, p)
  {
  }

  /** Running a cleanup loop a second time changes nothing. */
  lemma UnlinkEachIdempotent(t: Tree, dir: Path, names: seq<string>)
    ensures UnlinkEach(UnlinkEach(t, dir, names), dir, names) == UnlinkEach(t, dir, names)
  {
    UnlinkEachRemoves(t, dir, names);
    UnlinkEachRemoves(UnlinkEach(t, dir, names), dir, names);
  }

  /** A cleanup loop none of whose targets exists leaves the tree as it was. */
  lemma UnlinkEachOfAbsent(t: Tree, dir: Path, names: seq<string>)
    requires forall n :: n in names ==> dir + [n] !in t.files
    ensures UnlinkEach(t, dir, names) == t
  {
    UnlinkEachRemoves(t, dir, names);
    assert t.files - Children(dir, names) == t.files;
  }

  /** The header lines hold no newline of their own. */
  lemma EnvHeaderIsLines()
    ensures forall k :: 0 <= k < |EnvHeader| ==> DotEnv.NoNewline(EnvHeader[k])
  {
    assert DotEnv.NoNewline("# This .env file is used ");
    assert DotEnv.NoNewline("to configure the Generic LLM Agent.");
    DotEnv.NoNewlineConcat("# This .env file is used ", "to configure the Generic LLM Agent.");
    assert DotEnv.NoNewline("# Replace the placeholder values ");
    assert DotEnv.NoNewline("with your actual API key, ");
    assert DotEnv.NoNewline("model, and base URL.");
    DotEnv.NoNewlineConcat("# Replace the placeholder values ", "with your actual API key, ");
    DotEnv.NoNewlineConcat("# Replace the placeholder values " + "with your actual API key, ", "model, and base URL.");
  }

  /** The header lines define nothing. */
  lemma EnvHeaderDefinesNothing()
    ensures DotEnv.Definitions(EnvHeader) == map[]
  {
    assert !DotEnv.IsAssignment(EnvHeader[0]) && !DotEnv.IsAssignment(EnvHeader[1]);
    assert EnvHeader[..1][..0] == [];
    assert DotEnv.Definitions(EnvHeader[..1]) == map[];
    assert EnvHeader[..2][..1] == EnvHeader[..1];
    assert DotEnv.Definitions(EnvHeader[..2]) == map[];
    assert EnvHeader[..3][..2] == EnvHeader[..2];
    assert EnvHeader[..3] == EnvHeader;
  }

  /** The names and values of the four agent settings. */
  lemma AgentSettingsArePlain()
    ensures DotEnv.IsName("AGENT_LLM_API_KEY") && DotEnv.NoNewline("YOUR_LLM_API_KEY")
    ensures DotEnv.IsName("AGENT_LLM_MODEL") && DotEnv.NoNewline("your-preferred-model")
    ensures DotEnv.IsName("AGENT_LLM_BASE_URL") && DotEnv.NoNewline("your-llm-base-url")
    ensures DotEnv.IsName("AGENT_LLM_SITE_TITLE") && DotEnv.NoNewline("Your Agent Name")
  {
  }

  /** No line of the `.env` text holds a newline of its own. */
  lemma EnvLinesAreLines()
    ensures forall k :: 0 <= k < |EnvLines| ==> DotEnv.NoNewline(EnvLines[k])
  {
    EnvHeaderIsLines();
    AgentSettingsArePlain();
    DotEnv.AssignmentIsLine("AGENT_LLM_API_KEY", "YOUR_LLM_API_KEY");
    DotEnv.AssignmentIsLine("AGENT_LLM_MODEL", "your-preferred-model");
    DotEnv.AssignmentIsLine("AGENT_LLM_BASE_URL", "your-llm-base-url");
    DotEnv.AssignmentIsLine("AGENT_LLM_SITE_TITLE", "Your Agent Name");
  }

  /** The lines of the `.env` text define the four agent settings. */
  lemma EnvLinesDefineAgentSettings()
    ensures DotEnv.Definitions(EnvLines) == map[
      "AGENT_LLM_API_KEY" := "YOUR_LLM_API_KEY",
      "AGENT_LLM_MODEL" := "your-preferred-model",
      "AGENT_LLM_BASE_URL" := "your-llm-base-url",
      "AGENT_LLM_SITE_TITLE" := "Your Agent Name"]
  {
    EnvHeaderDefinesNothing();
    AgentSettingsArePlain();
    var a := DotEnv.Assignment("AGENT_LLM_API_KEY", "YOUR_LLM_API_KEY");
    var b := DotEnv.Assignment("AGENT_LLM_MODEL", "your-preferred-model");
    var c := DotEnv.Assignment("AGENT_LLM_BASE_URL", "your-llm-base-url");
    var d := DotEnv.Assignment("AGENT_LLM_SITE_TITLE", "Your Agent Name");
    DotEnv.DefinitionsAppend(EnvHeader, "AGENT_LLM_API_KEY", "YOUR_LLM_API_KEY");
    DotEnv.DefinitionsAppend(EnvHeader + [a], "AGENT_LLM_MODEL", "your-preferred-model");
    DotEnv.DefinitionsAppend(EnvHeader + [a] + [b], "AGENT_LLM_BASE_URL", "your-llm-base-url");
    DotEnv.DefinitionsAppend(EnvHeader + [a] + [b] + [c], "AGENT_LLM_SITE_TITLE", "Your Agent Name");
  }

  /** The `.env` file of the agent style, read back, defines exactly the four
      agent settings, with their placeholder values. */
  lemma EnvDefinesAgentSettings()
    ensures DotEnv.Variables(EnvContent) == map[
      "AGENT_LLM_API_KEY" := "YOUR_LLM_API_KEY",
      "AGENT_LLM_MODEL" := "your-preferred-model",
      "AGENT_LLM_BASE_URL" := "your-llm-base-url",
      "AGENT_LLM_SITE_TITLE" := "Your Agent Name"]
  {
    EnvLinesAreLines();
    DotEnv.LinesOfUnlines(EnvLines);
    EnvLinesDefineAgentSettings();
  }
}
