/** The text format of a `.env` file: newline-terminated lines, where a line
    `NAME=value` that is not a `#` comment defines the variable NAME. */
module DotEnv {

  /** The text made of `lines`, each ended by a newline. */
  function Unlines(lines: seq<string>): string {
    if lines == [] then "" else lines[0] + "\n" + Unlines(lines[1..])
  }

  /** The position of the first `c` in `s`, or |s| when there is none. */
  function IndexOf(s: string, c: char): (i: nat)
    ensures i <= |s|
    ensures i < |s| ==> s[i] == c
    ensures forall j :: 0 <= j < i ==> s[j] != c
  {
    if s == [] then 0
    else if s[0] == c then 0
    else 1 + IndexOf(s[1..], c)
  }

  /** The lines of `text`: the pieces before each newline, and a last piece
      that has no newline after it when it is not empty. */
  function Lines(text: string): seq<string>
    decreases |text|
  {
    if text == [] then []
    else
      var i := IndexOf(text, '\n');
      if i == |text| then [text] else [text[..i]] + Lines(text[i + 1..])
  }

  /** A line that defines a variable: not blank, not a comment, holding an `=`. */
  predicate IsAssignment(line: string) {
    line != [] && line[0] != '#' && IndexOf(line, '=') < |line|
  }

  /** The variables `lines` define, a later definition overriding an earlier one. */
  function Definitions(lines: seq<string>): map<string, string> {
    if lines == [] then map[]
    else
      var earlier := Definitions(lines[..|lines| - 1]);
      var line := lines[|lines| - 1];
      if IsAssignment(line) then
        var i := IndexOf(line, '=');
        earlier[line[..i] := line[i + 1..]]
      else earlier
  }

  /** The variables a `.env` file holding `text` defines. */
  function Variables(text: string): map<string, string> {
    Definitions(Lines(text))
  }

  /** The line that sets `name` to `value`. */
  function Assignment(name: string, value: string): string {
    name + "=" + value
  }

  /** `s` can be the name of a variable: not empty, not starting a comment, and
      holding neither `=` nor a newline. */
  predicate IsName(s: string) {
    && s != []
    && s[0] != '#'
    && forall i :: 0 <= i < |s| ==> s[i] != '=' && s[i] != '\n'
  }

  /** `s` can be one line of a text. */
  predicate NoNewline(s: string) {
    forall i :: 0 <= i < |s| ==> s[i] != '\n'
  }

  lemma NoNewlineConcat(a: string, b: string)
    requires NoNewline(a) && NoNewline(b)
    ensures NoNewline(a + b)
  {
    forall i | |a| <= i < |a + b| ensures (a + b)[i] != '\n' {
      assert (a + b)[i] == b[i - |a|];
    }
  }

  /** The first newline of a line followed by a newline is the one after it. */
  lemma IndexOfLineEnd(line: string, rest: string)
    requires NoNewline(line)
    ensures IndexOf(line + "\n" + rest, '\n') == |line|
  {
    var text := line + "\n" + rest;
    assert text[|line|] == '\n';
    assert forall j :: 0 <= j < |line| ==> text[j] == line[j];
  }

  /** Reading back text written line by line gives the same lines. */
  lemma {:induction false} LinesOfUnlines(lines: seq<string>)
    requires forall k :: 0 <= k < |lines| ==> NoNewline(lines[k])
    ensures Lines(Unlines(lines)) == lines
  {
    if lines != [] {
      var first := lines[0];
      var rest := Unlines(lines[1..]);
      var text := first + "\n" + rest;
      assert Unlines(lines) == text;
      IndexOfLineEnd(first, rest);
      assert text[..|first|] == first;
      assert text[|first| + 1..] == rest;
      LinesOfUnlines(lines[1..]);
      assert Lines(text) == [first] + Lines(rest);
    }
  }

  /** `name=value` defines `name` as `value`. */
  lemma AssignmentParts(name: string, value: string)
    requires IsName(name)
    ensures var line := Assignment(name, value);
      IsAssignment(line) && IndexOf(line, '=') == |name| &&
      line[..|name|] == name && line[|name| + 1..] == value
  {
    var line := Assignment(name, value);
    assert line[|name|] == '=';
    assert forall j :: 0 <= j < |name| ==> line[j] == name[j];
  }

  /** An assignment line sets its variable, whatever the lines before it define. */
  lemma DefinitionsAppend(lines: seq<string>, name: string, value: string)
    requires IsName(name)
    ensures Definitions(lines + [Assignment(name, value)]) == Definitions(lines)[name := value]
  {
    AssignmentParts(name, value);
    assert (lines + [Assignment(name, value)])[..|lines|] == lines;
  }

  /** An assignment line is one line when its value is. */
  lemma AssignmentIsLine(name: string, value: string)
    requires IsName(name) && NoNewline(value)
    ensures NoNewline(Assignment(name, value))
  {
    NoNewlineConcat(name, "=");
    NoNewlineConcat(name + "=", value);
  }
}
