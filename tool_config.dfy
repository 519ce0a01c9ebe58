/** Resolution of the external merge tool and diff editor from the user's
    settings: which tool name to use, and how that name becomes a full tool
    description (program, argument templates, marker handling). */
module ToolConfig {
  import opened Common

  /** The settings table holding one entry per configured tool. */
  const ToolsTableKey: string := "merge-tools"
  /** The tool used when the role key is not set. */
  const DefaultEditorName: string := "meld"
  const DiffEditorKey: string := "ui.diff-editor"
  const MergeEditorKey: string := "ui.merge-editor"

  /** A merge tool or diff editor as the settings describe it. */
  datatype MergeTool = MergeTool(
    program: string,
    editArgs: seq<string>,
    mergeArgs: seq<string>,
    editsConflictMarkers: bool)

  /** A settings value looked up as a string: scalar text, or a table or array
      that cannot be read as a string. */
  datatype ConfigValue = Text(text: string) | Structured

  /** One entry of the tools table after deserialisation; a missing `program`
      deserialises as the empty string. */
  datatype ToolEntry = Parsed(tool: MergeTool) | Malformed(reason: string)

  /** The user's settings: plain keys, and the tools table (which may itself be
      missing or unreadable). */
  datatype Settings = Settings(
    values: map<string, ConfigValue>,
    toolsTable: Result<map<string, ToolEntry>, ConfigError>)

  /** The hint shown when a role key is unset and the default tool is used. */
  datatype Notice = UsingDefaultEditor(editor: string, key: string)

  /** The settings library's `get_string`. */
  function GetString(settings: Settings, key: string): Result<string, ConfigError> {
    if key !in settings.values then Err(NotFound(key))
    else
      match settings.values[key]
      case Text(s) => Ok(s)
      case Structured => Err(WrongType(key))
  }

  /** The description of a tool that has no entry of its own. */
  function WithProgram(program: string): (tool: MergeTool)
    ensures tool.program == program
    ensures tool.editArgs == [] && tool.mergeArgs == []
    ensures !tool.editsConflictMarkers
  {
    MergeTool(program, [], [], false)
  }

  /** The tool name for a role key, with the hint to show when the default is
      used. */
  function EditorNameFromSettings(settings: Settings, key: string): (r: Result<(string, Option<Notice>), ExternalToolError>)
    ensures key !in settings.values <==>
              r == Ok((DefaultEditorName, Some(UsingDefaultEditor(DefaultEditorName, key))))
    ensures r.Ok? && r.value.1.None? <==> key in settings.values && settings.values[key].Text?
    ensures r.Ok? && r.value.1.None? ==> settings.values[key] == Text(r.value.0)
    ensures r.Err? <==> key in settings.values && settings.values[key].Structured?
    ensures r.Err? ==> r.error == InvalidConfig(WrongType(key))
  {
    match GetString(settings, key)
    case Ok(name) => Ok((name, None))
    case Err(NotFound(_)) => Ok((DefaultEditorName, Some(UsingDefaultEditor(DefaultEditorName, key))))
    case Err(e) => Err(InvalidConfig(e))
  }

  /** The tool description for `name`: its entry in the tools table, with the
      name standing in for a missing program, or a description synthesised from
      the name alone when there is no entry. */
  function GetToolConfig(settings: Settings, name: string): (r: Result<MergeTool, ConfigError>)
    ensures settings.toolsTable.Err? ==> r == Err(settings.toolsTable.error)
    ensures settings.toolsTable.Ok? && name !in settings.toolsTable.value ==>
              r.Ok? && r.value.program == name && r.value.editArgs == [] && r.value.mergeArgs == []
              && !r.value.editsConflictMarkers
    ensures settings.toolsTable.Ok? && name in settings.toolsTable.value ==>
              match settings.toolsTable.value[name]
              case Malformed(reason) => r == Err(Message(ToolsTableKey + "." + name + ": " + reason))
              case Parsed(t) =>
                && r.Ok?
                && r.value.program == (if t.program == "" then name else t.program)
                && r.value.editArgs == t.editArgs
                && r.value.mergeArgs == t.mergeArgs
                && r.value.editsConflictMarkers == t.editsConflictMarkers
    ensures r.Ok? && name != "" ==> r.value.program != ""
  {
    match settings.toolsTable
    case Err(e) => Err(e)
    case Ok(table) =>
      if name in table then
        match table[name]
        case Malformed(reason) => Err(Message(ToolsTableKey + "." + name + ": " + reason))
        case Parsed(result) =>
          Ok(if result.program == "" then result.(program := name) else result)
      else
        Ok(WithProgram(name))
  }

  /** The diff editor, with the hint shown while resolving it. */
  function GetDiffEditor(settings: Settings): (r: (Result<MergeTool, ExternalToolError>, Option<Notice>))
    ensures r.0.Err? ==> r.0.error.InvalidConfig?
    ensures r.0.Ok? <==>
              && EditorNameFromSettings(settings, DiffEditorKey).Ok?
              && GetToolConfig(settings, EditorNameFromSettings(settings, DiffEditorKey).value.0).Ok?
    ensures var name := EditorNameFromSettings(settings, DiffEditorKey);
            && (name.Err? ==> r == (Err(name.error), None))
            && (name.Ok? ==> r.1 == name.value.1)
            && (name.Ok? && GetToolConfig(settings, name.value.0).Err? ==>
                  r.0 == Err(InvalidConfig(GetToolConfig(settings, name.value.0).error)))
            && (r.0.Ok? ==> r.0.value == GetToolConfig(settings, name.value.0).value)
  {
    match EditorNameFromSettings(settings, DiffEditorKey)
    case Err(e) => (Err(e), None)
    case Ok((name, notice)) =>
      match GetToolConfig(settings, name)
      case Err(e) => (Err(InvalidConfig(e)), notice)
      case Ok(tool) => (Ok(tool), notice)
  }

  /** The merge tool, with the hint shown while resolving it. A tool without
      merge argument templates cannot be used to merge. */
  function GetMergeTool(settings: Settings): (r: (Result<MergeTool, ExternalToolError>, Option<Notice>))
    ensures r.0.Ok? ==> r.0.value.mergeArgs != []
    ensures r.0.Err? && r.0.error.MergeArgsNotConfigured? ==>
              && EditorNameFromSettings(settings, MergeEditorKey) == Ok((r.0.error.toolName, r.1))
              && GetToolConfig(settings, r.0.error.toolName).Ok?
              && GetToolConfig(settings, r.0.error.toolName).value.mergeArgs == []
    ensures var name := EditorNameFromSettings(settings, MergeEditorKey);
            name.Ok? && GetToolConfig(settings, name.value.0).Ok? && GetToolConfig(settings, name.value.0).value.mergeArgs == [] ==>
              r.0 == Err(MergeArgsNotConfigured(name.value.0))
    ensures var name := EditorNameFromSettings(settings, MergeEditorKey);
            && (name.Err? ==> r == (Err(name.error), None))
            && (name.Ok? ==> r.1 == name.value.1)
            && (name.Ok? && GetToolConfig(settings, name.value.0).Err? ==>
                  r.0 == Err(InvalidConfig(GetToolConfig(settings, name.value.0).error)))
            && (name.Ok? && GetToolConfig(settings, name.value.0).Ok? && GetToolConfig(settings, name.value.0).value.mergeArgs != [] ==>
                  r.0 == Ok(GetToolConfig(settings, name.value.0).value))
  {
    match EditorNameFromSettings(settings, MergeEditorKey)
    case Err(e) => (Err(e), None)
    case Ok((name, notice)) =>
      match GetToolConfig(settings, name)
      case Err(e) => (Err(InvalidConfig(e)), notice)
      case Ok(editor) =>
        if editor.mergeArgs == [] then (Err(MergeArgsNotConfigured(name)), notice)
        else (Ok(editor), notice)
  }

  /** Both role keys hold the same setting (both unset, or equal). */
  predicate SameToolSetting(settings: Settings) {
    && (DiffEditorKey in settings.values <==> MergeEditorKey in settings.values)
    && (DiffEditorKey in settings.values ==> settings.values[DiffEditorKey] == settings.values[MergeEditorKey])
  }

  /** Merge-tool resolution is diff-editor resolution plus the merge-argument
      check, and that check is the only difference between the two. */
  lemma MergeToolIsCheckedDiffEditor(settings: Settings)
    requires SameToolSetting(settings)
    ensures var diff := GetDiffEditor(settings).0;
            var merge := GetMergeTool(settings).0;
            && (diff.Ok? && diff.value.mergeArgs != [] ==> merge == diff)
            && (diff.Ok? && diff.value.mergeArgs == [] ==>
                  merge == Err(MergeArgsNotConfigured(EditorNameFromSettings(settings, DiffEditorKey).value.0)))
            && (diff.Err? <==> merge.Err? && !merge.error.MergeArgsNotConfigured?)
  {
    var diffName := EditorNameFromSettings(settings, DiffEditorKey);
    var mergeName := EditorNameFromSettings(settings, MergeEditorKey);
    assert diffName.Ok? <==> mergeName.Ok?;
    if diffName.Ok? {
      assert diffName.value.0 == mergeName.value.0;
    }
  }

  /** With neither role key set, both roles fall back to `meld`, and each
      resolution shows the hint naming its own key. */
  lemma DefaultEditorIsMeld(settings: Settings, meld: MergeTool)
    requires DiffEditorKey !in settings.values && MergeEditorKey !in settings.values
    requires settings.toolsTable.Ok? && DefaultEditorName in settings.toolsTable.value
    requires settings.toolsTable.value[DefaultEditorName] == Parsed(meld)
    requires meld.program == "" && meld.mergeArgs != []
    ensures GetDiffEditor(settings) ==
              (Ok(meld.(program := DefaultEditorName)), Some(UsingDefaultEditor(DefaultEditorName, DiffEditorKey)))
    ensures GetMergeTool(settings) ==
              (Ok(meld.(program := DefaultEditorName)), Some(UsingDefaultEditor(DefaultEditorName, MergeEditorKey)))
  {
  }

  /** A tool named in the settings but absent from the tools table runs under
      its own name with no argument templates: usable as a diff editor, and
      refused as a merge tool with an error naming it. */
  lemma UnconfiguredToolByName(settings: Settings, name: string)
    requires DiffEditorKey in settings.values && settings.values[DiffEditorKey] == Text(name)
    requires MergeEditorKey in settings.values && settings.values[MergeEditorKey] == Text(name)
    requires settings.toolsTable.Ok? && name !in settings.toolsTable.value
    ensures GetDiffEditor(settings) == (Ok(MergeTool(name, [], [], false)), None)
    ensures GetMergeTool(settings) == (Err(MergeArgsNotConfigured(name)), None)
  {
  }

  /** An entry that sets only some fields keeps them, takes its name as the
      program, and leaves the other fields at their defaults. */
  lemma PartialEntryKeepsFields(settings: Settings, name: string, editArgs: seq<string>, mergeArgs: seq<string>)
    requires DiffEditorKey in settings.values && settings.values[DiffEditorKey] == Text(name)
    requires MergeEditorKey in settings.values && settings.values[MergeEditorKey] == Text(name)
    requires settings.toolsTable.Ok? && name in settings.toolsTable.value
    requires settings.toolsTable.value[name] == Parsed(MergeTool("", editArgs, mergeArgs, false))
    ensures GetDiffEditor(settings) == (Ok(MergeTool(name, editArgs, mergeArgs, false)), None)
    ensures mergeArgs != [] ==> GetMergeTool(settings) == (Ok(MergeTool(name, editArgs, mergeArgs, false)), None)
    ensures mergeArgs == [] ==> GetMergeTool(settings) == (Err(MergeArgsNotConfigured(name)), None)
  {
  }
}
