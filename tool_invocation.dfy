/**
 * The status label a chat bubble shows for one tool call of the agent: a file
 * name taken from the call's path, a pair of labels chosen by tool name and
 * command, and the choice between them by the call's state.
 */
module ToolInvocation {
  import opened Wrappers
  import opened JsString

  /** The arguments the label reads; every one of them may be missing. */
  datatype ToolArgs = ToolArgs(command: Option<string>, path: Option<string>, newPath: Option<string>)

  /** The empty arguments record `{}`. */
  const NoArgs := ToolArgs(None, None, None)

  /** One tool call as the chat transcript holds it; `result` is the raw payload. */
  datatype ToolInvocationData = ToolInvocationData(
    toolName: string,
    state: string,
    args: Option<ToolArgs>,
    result: Option<string>)

  /** The label shown while the call runs and the one shown once it has a result. */
  datatype Labels = Labels(pending: string, complete: string)

  /**
   * The file name shown for a path: "file" when the path is missing or empty;
   * otherwise the part after the last `/`, or the whole path when that part is
   * empty. The name is never empty, and it is either the whole path or a final
   * run of the path without `/` that follows a `/`.
   */
  function FileName(path: Option<string>): (name: string)
    ensures name != ""
    ensures Falsy(path) ==> name == "file"
    ensures !Falsy(path) ==>
      var p := path.value;
      && |name| <= |p| && p[|p| - |name|..] == name
      && (name == p || ('/' !in name && p[|p| - |name| - 1] == '/'))
  {
    if Falsy(path) then "file"
    else
      var seg := Pop(Split(path.value, '/'));
      LastPartIsFinalRun(path.value, '/');
      if seg != "" then seg else path.value
  }

  /** A path `prefix/last` whose last part is non-empty shows exactly that part. */
  lemma FileNameIsLastPart(prefix: string, last: string)
    requires last != "" && '/' !in last
    ensures FileName(Some(prefix + "/" + last)) == last
  {
    LastPartAfterSeparator(prefix, '/', last);
  }

  /** A path without `/` is shown unchanged. */
  lemma FileNameWithoutSlash(path: string)
    requires path != "" && '/' !in path
    ensures FileName(Some(path)) == path
  {
    LastPartWithoutSeparator(path, '/');
  }

  /** A path ending in `/` has an empty last part, so the whole path is shown. */
  lemma FileNameOfTrailingSlash(path: string)
    requires path != "" && path[|path| - 1] == '/'
    ensures FileName(Some(path)) == path
  {
    LastPartAfterTrailingSeparator(path, '/');
  }

  /** `tool.args || {}`: missing arguments read as the empty record. */
  function ArgsOf(tool: ToolInvocationData): ToolArgs {
    if tool.args.Some? then tool.args.value else NoArgs
  }

  /** The label pair for a call, chosen by tool name and then by command. */
  function GetMessage(tool: ToolInvocationData): Labels {
    var args := ArgsOf(tool);
    var fileName := FileName(args.path);
    if tool.toolName == "str_replace_editor" then
      if args.command == Some("create") then
        Labels("Writing " + fileName + "...", "Wrote " + fileName)
      else if args.command == Some("view") then
        Labels("Reading " + fileName + "...", "Read " + fileName)
      else if args.command == Some("str_replace") || args.command == Some("insert") then
        Labels("Editing " + fileName + "...", "Edited " + fileName)
      else
        Labels("Working on " + fileName + "...", "Updated " + fileName)
    else if tool.toolName == "file_manager" then
      var newFileName := FileName(args.newPath);
      if args.command == Some("rename") then
        Labels("Renaming file...", "Renamed to " + newFileName)
      else if args.command == Some("delete") then
        Labels("Removing file...", "Removed file")
      else
        Labels("Processing file...", "Done")
    else
      Labels("Working...", "Done")
  }

  /**
   * Every label pair has two different labels, and the pending one ends in "...";
   * so the shown text alone tells whether the call is finished.
   */
  lemma LabelsDiffer(tool: ToolInvocationData)
    ensures GetMessage(tool).pending != GetMessage(tool).complete
    ensures var pending := GetMessage(tool).pending;
      |pending| >= 3 && pending[|pending| - 3..] == "..."
  {
    var labels := GetMessage(tool);
    var args := ArgsOf(tool);
    if tool.toolName == "str_replace_editor" {
      if args.command == Some("create") {
        assert labels.pending[2] != labels.complete[2];
      } else if args.command == Some("view") {
        assert labels.pending[4] != labels.complete[4];
      } else if args.command == Some("str_replace") || args.command == Some("insert") {
        assert labels.pending[4] != labels.complete[4];
      } else {
        assert labels.pending[0] != labels.complete[0];
      }
    } else if tool.toolName == "file_manager" && args.command == Some("rename") {
      assert labels.pending[5] != labels.complete[5];
    }
  }

  /** Whether the bubble shows its call as finished. */
  predicate IsComplete(tool: ToolInvocationData) {
    tool.state == "result"
  }

  /**
   * The text the bubble shows: the complete label exactly when the state is
   * "result", and the pending label for every other state.
   */
  function DisplayedLabel(tool: ToolInvocationData): (shown: string)
    ensures shown == GetMessage(tool).complete <==> tool.state == "result"
    ensures shown == GetMessage(tool).pending <==> tool.state != "result"
  {
    var labels := GetMessage(tool);
    LabelsDiffer(tool);
    if IsComplete(tool) then labels.complete else labels.pending
  }

  /** The icon beside the label: a check mark or a spinning loader. */
  datatype Icon = CheckMark | Spinner

  /**
   * The icon the bubble shows. It is chosen by the same test as the label, so
   * the check mark appears exactly when the complete label does.
   */
  function ShownIcon(tool: ToolInvocationData): (icon: Icon)
    ensures icon == CheckMark <==> DisplayedLabel(tool) == GetMessage(tool).complete
    ensures icon == Spinner <==> DisplayedLabel(tool) == GetMessage(tool).pending
  {
    if IsComplete(tool) then CheckMark else Spinner
  }

  /** The shown label never depends on the result payload. */
  lemma DisplayedLabelIgnoresResult(tool: ToolInvocationData, result: Option<string>)
    ensures DisplayedLabel(tool.(result := result)) == DisplayedLabel(tool)
  {
    assert GetMessage(tool.(result := result)) == GetMessage(tool);
  }

  /** Missing arguments label a call exactly as the empty record `{}` does. */
  lemma MissingArgsReadAsEmpty(tool: ToolInvocationData)
    ensures GetMessage(tool.(args := None)) == GetMessage(tool.(args := Some(NoArgs)))
  {
  }

  /**
   * For the editor tool both labels carry the file name of `path`: the complete
   * label ends with it and the pending label ends with it followed by "...".
   */
  lemma EditorLabelsNameTheFile(tool: ToolInvocationData)
    requires tool.toolName == "str_replace_editor"
    ensures var name := FileName(ArgsOf(tool).path);
      var labels := GetMessage(tool);
      && |name| < |labels.complete| && labels.complete[|labels.complete| - |name|..] == name
      && |name| + 3 < |labels.pending| && labels.pending[|labels.pending| - |name| - 3..] == name + "..."
  {
    EditorDispatch(tool);
    var name := FileName(ArgsOf(tool).path);
    var command := ArgsOf(tool).command;
    var doing: string, done: string;
    if command == Some("create") {
      doing, done := "Writing ", "Wrote ";
    } else if command == Some("view") {
      doing, done := "Reading ", "Read ";
    } else if command == Some("str_replace") || command == Some("insert") {
      doing, done := "Editing ", "Edited ";
    } else {
      doing, done := "Working on ", "Updated ";
    }
    var labels := GetMessage(tool);
    assert labels.complete == done + name;
    assert labels.pending == doing + (name + "...");
  }

  /** For the editor tool `new_path` plays no part in the labels. */
  lemma EditorIgnoresNewPath(tool: ToolInvocationData, newPath: Option<string>)
    requires tool.toolName == "str_replace_editor"
    ensures GetMessage(tool.(args := Some(ArgsOf(tool).(newPath := newPath)))) == GetMessage(tool)
  {
  }

  /**
   * The editor tool's table: create is writing, view is reading, str_replace and
   * insert are both editing, and any other or missing command is working on the
   * file, each label naming the file of `path`.
   */
  lemma EditorDispatch(tool: ToolInvocationData)
    requires tool.toolName == "str_replace_editor"
    ensures var name := FileName(ArgsOf(tool).path);
      var command := ArgsOf(tool).command;
      var labels := GetMessage(tool);
      && (command == Some("create") ==> labels == Labels("Writing " + name + "...", "Wrote " + name))
      && (command == Some("view") ==> labels == Labels("Reading " + name + "...", "Read " + name))
      && (command == Some("str_replace") || command == Some("insert") ==> labels == Labels("Editing " + name + "...", "Edited " + name))
      && (command !in {Some("create"), Some("view"), Some("str_replace"), Some("insert")} ==>
            labels == Labels("Working on " + name + "...", "Updated " + name))
  {
  }

  /**
   * The file manager's table: rename names the file of `new_path`, delete and
   * every other command name no file; `path` never changes the labels.
   */
  lemma FileManagerDispatch(tool: ToolInvocationData, path: Option<string>)
    requires tool.toolName == "file_manager"
    ensures var command := ArgsOf(tool).command;
      var labels := GetMessage(tool);
      && (command == Some("rename") ==> labels == Labels("Renaming file...", "Renamed to " + FileName(ArgsOf(tool).newPath)))
      && (command == Some("delete") ==> labels == Labels("Removing file...", "Removed file"))
      && (command != Some("rename") && command != Some("delete") ==> labels == Labels("Processing file...", "Done"))
    ensures GetMessage(tool.(args := Some(ArgsOf(tool).(path := path)))) == GetMessage(tool)
  {
  }

  /** Any tool other than the two known ones is labelled "Working..." / "Done", whatever its arguments. */
  lemma UnknownToolLabels(tool: ToolInvocationData)
    requires tool.toolName != "str_replace_editor" && tool.toolName != "file_manager"
    ensures GetMessage(tool) == Labels("Working...", "Done")
  {
  }

  /** An editor call with the given command and path, in the given state. */
  function EditorCall(state: string, command: string, path: string): ToolInvocationData {
    ToolInvocationData("str_replace_editor", state, Some(ToolArgs(Some(command), Some(path), None)), None)
  }

  /** Creating `/App.jsx` shows "Writing App.jsx..." while pending. */
  lemma CreatePendingScenario()
    ensures DisplayedLabel(EditorCall("pending", "create", "/App.jsx")) == "Writing " + "App.jsx" + "..."
  {
    assert FileName(Some("/App.jsx")) == "App.jsx" by {
      assert "/App.jsx" == "" + "/" + "App.jsx";
      FileNameIsLastPart("", "App.jsx");
    }
    EditorDispatch(EditorCall("pending", "create", "/App.jsx"));
  }

  /** Creating `/App.jsx` shows "Wrote App.jsx" once done. */
  lemma CreateResultScenario()
    ensures DisplayedLabel(EditorCall("result", "create", "/App.jsx")) == "Wrote " + "App.jsx"
  {
    assert FileName(Some("/App.jsx")) == "App.jsx" by {
      assert "/App.jsx" == "" + "/" + "App.jsx";
      FileNameIsLastPart("", "App.jsx");
    }
    EditorDispatch(EditorCall("result", "create", "/App.jsx"));
  }

  /** Replacing text in `/components/Button.tsx` shows "Editing Button.tsx..." while pending. */
  lemma StrReplacePendingScenario()
    ensures DisplayedLabel(EditorCall("pending", "str_replace", "/components/Button.tsx")) == "Editing " + "Button.tsx" + "..."
  {
    assert FileName(Some("/components/Button.tsx")) == "Button.tsx" by {
      assert "/components/Button.tsx" == "/components" + "/" + "Button.tsx";
      FileNameIsLastPart("/components", "Button.tsx");
    }
    EditorDispatch(EditorCall("pending", "str_replace", "/components/Button.tsx"));
  }

  /** Replacing text in `/components/Button.tsx` shows "Edited Button.tsx" once done. */
  lemma StrReplaceResultScenario()
    ensures DisplayedLabel(EditorCall("result", "str_replace", "/components/Button.tsx")) == "Edited " + "Button.tsx"
  {
    assert FileName(Some("/components/Button.tsx")) == "Button.tsx" by {
      assert "/components/Button.tsx" == "/components" + "/" + "Button.tsx";
      FileNameIsLastPart("/components", "Button.tsx");
    }
    EditorDispatch(EditorCall("result", "str_replace", "/components/Button.tsx"));
  }

  /** Viewing `/index.js` shows "Reading index.js..." while pending. */
  lemma ViewPendingScenario()
    ensures DisplayedLabel(EditorCall("pending", "view", "/index.js")) == "Reading " + "index.js" + "..."
  {
    assert FileName(Some("/index.js")) == "index.js" by {
      assert "/index.js" == "" + "/" + "index.js";
      FileNameIsLastPart("", "index.js");
    }
    EditorDispatch(EditorCall("pending", "view", "/index.js"));
  }

  /** Viewing `/index.js` shows "Read index.js" once done. */
  lemma ViewResultScenario()
    ensures DisplayedLabel(EditorCall("result", "view", "/index.js")) == "Read " + "index.js"
  {
    assert FileName(Some("/index.js")) == "index.js" by {
      assert "/index.js" == "" + "/" + "index.js";
      FileNameIsLastPart("", "index.js");
    }
    EditorDispatch(EditorCall("result", "view", "/index.js"));
  }

  /** Inserting into `/utils.ts` shows "Editing utils.ts..." while pending. */
  lemma InsertPendingScenario()
    ensures DisplayedLabel(EditorCall("pending", "insert", "/utils.ts")) == "Editing " + "utils.ts" + "..."
  {
    assert FileName(Some("/utils.ts")) == "utils.ts" by {
      assert "/utils.ts" == "" + "/" + "utils.ts";
      FileNameIsLastPart("", "utils.ts");
    }
    EditorDispatch(EditorCall("pending", "insert", "/utils.ts"));
  }

  /** A nested path shows only its last part: "Wrote Button.tsx". */
  lemma NestedPathScenario()
    ensures DisplayedLabel(EditorCall("result", "create", "/src/components/ui/Button.tsx")) == "Wrote " + "Button.tsx"
  {
    assert FileName(Some("/src/components/ui/Button.tsx")) == "Button.tsx" by {
      assert "/src/components/ui/Button.tsx" == "/src/components/ui" + "/" + "Button.tsx";
      FileNameIsLastPart("/src/components/ui", "Button.tsx");
    }
    EditorDispatch(EditorCall("result", "create", "/src/components/ui/Button.tsx"));
  }

  /** A file-manager call with the given command, path and new path, in the given state. */
  function FileManagerCall(state: string, command: string, path: string, newPath: Option<string>): ToolInvocationData {
    ToolInvocationData("file_manager", state, Some(ToolArgs(Some(command), Some(path), newPath)), None)
  }

  /** Renaming `/old.js` to `/new.js` shows "Renaming file..." while pending. */
  lemma RenamePendingScenario()
    ensures DisplayedLabel(FileManagerCall("pending", "rename", "/old.js", Some("/new.js"))) == "Renaming file..."
  {
    FileManagerDispatch(FileManagerCall("pending", "rename", "/old.js", Some("/new.js")), None);
  }

  /** Renaming `/old.js` to `/new.js` shows "Renamed to new.js" once done. */
  lemma RenameResultScenario()
    ensures DisplayedLabel(FileManagerCall("result", "rename", "/old.js", Some("/new.js"))) == "Renamed to " + "new.js"
  {
    assert FileName(Some("/new.js")) == "new.js" by {
      assert "/new.js" == "" + "/" + "new.js";
      FileNameIsLastPart("", "new.js");
    }
    var tool := FileManagerCall("result", "rename", "/old.js", Some("/new.js"));
    assert ArgsOf(tool).newPath == Some("/new.js") && ArgsOf(tool).command == Some("rename");
    assert GetMessage(tool).complete == "Renamed to " + FileName(Some("/new.js"));
    assert IsComplete(tool);
  }

  /** Deleting `/temp.js` shows "Removing file..." while pending. */
  lemma DeletePendingScenario()
    ensures DisplayedLabel(FileManagerCall("pending", "delete", "/temp.js", None)) == "Removing file..."
  {
    FileManagerDispatch(FileManagerCall("pending", "delete", "/temp.js", None), None);
  }

  /** Deleting `/temp.js` shows "Removed file" once done. */
  lemma DeleteResultScenario()
    ensures DisplayedLabel(FileManagerCall("result", "delete", "/temp.js", None)) == "Removed file"
  {
    FileManagerDispatch(FileManagerCall("result", "delete", "/temp.js", None), None);
  }

  /** An editor call without arguments shows "Working on file...". */
  lemma MissingArgsScenario()
    ensures DisplayedLabel(ToolInvocationData("str_replace_editor", "pending", None, None)) == "Working on " + "file" + "..."
  {
    EditorDispatch(ToolInvocationData("str_replace_editor", "pending", None, None));
  }

  /** A call of an unknown tool shows "Working..." while pending and "Done" once done. */
  lemma UnknownToolScenario()
    ensures DisplayedLabel(ToolInvocationData("unknown_tool", "pending", None, None)) == "Working..."
    ensures DisplayedLabel(ToolInvocationData("unknown_tool", "result", None, None)) == "Done"
  {
    UnknownToolLabels(ToolInvocationData("unknown_tool", "pending", None, None));
    UnknownToolLabels(ToolInvocationData("unknown_tool", "result", None, None));
  }
}
