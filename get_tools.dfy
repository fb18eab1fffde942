/**
 * Tool-registry selection (src/get-tools.ts): the editor tools enabled for a
 * field, taken from a fixed table by name, with the file tools dropped when
 * the user may not read files and the alignment tune attached to paragraph,
 * header and quote blocks.
 */
module Tools {
  import opened Optional

  /** The tool classes the table refers to; their behaviour is outside the model. */
  datatype ToolClass =
    | HeaderTool | ListTool | NestedListTool | EmbedTool | ParagraphTool | CodeTool
    | WarningTool | UnderlineTool | StrikethroughTool | AlertTool | TableTool | QuoteTool
    | MarkerTool | InlineCodeTool | DelimiterTool | RawTool | ChecklistTool | SimpleImageTool
    | ImageTool | AttachesTool | PersonalityTool | AlignmentTuneTool

  /**
   * One tool's settings object: `class`, optional `shortcut` and
   * `inlineToolbar`, the `config.uploader` of the file tools, and `tunes`.
   * `C` is the type of the uploader configuration, passed through untouched.
   */
  datatype ToolSettings<C> = ToolSettings(
    toolClass: ToolClass,
    shortcut: Option<string>,
    inlineToolbar: Option<bool>,
    uploader: Option<C>,
    tunes: Option<seq<string>>)

  function Tool<C>(toolClass: ToolClass, shortcut: Option<string>, inlineToolbar: Option<bool>): ToolSettings<C>
  {
    ToolSettings(toolClass, shortcut, inlineToolbar, None, None)
  }

  /** The tools that need file access. */
  const FileRequiresTools: seq<string> := ["attaches", "personality", "image"]

  /** The tools that receive the alignment tune. */
  const AlignableTools: seq<string> := ["paragraph", "header", "quote"]

  /** The name of the alignment tune, both as a tool and as a tune. */
  const AlignmentTune: string := "alignmentTune"

  /** The `defaults` table. */
  function Defaults<C>(uploaderConfig: C): (table: map<string, ToolSettings<C>>)
    ensures forall name :: name in FileRequiresTools ==> name in table
    ensures forall name :: name in AlignableTools ==> name in table
    ensures AlignmentTune in table
    ensures forall name :: name in table ==> table[name].tunes.None?
    ensures forall name :: name in table ==>
      (table[name].uploader.Some? <==> name in FileRequiresTools)
      && (table[name].uploader.Some? ==> table[name].uploader.value == uploaderConfig)
  {
    map[
      "header" := Tool(HeaderTool, Some("CMD+SHIFT+H"), Some(true)),
      "list" := Tool(ListTool, Some("CMD+SHIFT+1"), Some(false)),
      "nestedlist" := Tool(NestedListTool, Some("CMD+SHIFT+L"), Some(true)),
      "embed" := Tool(EmbedTool, None, Some(true)),
      "paragraph" := Tool(ParagraphTool, None, Some(true)),
      "code" := Tool(CodeTool, None, None),
      "warning" := Tool(WarningTool, Some("CMD+SHIFT+W"), Some(true)),
      "underline" := Tool(UnderlineTool, Some("CMD+SHIFT+U"), None),
      "strikethrough" := Tool(StrikethroughTool, None, None),
      "alert" := Tool(AlertTool, None, None),
      "table" := Tool(TableTool, None, Some(true)),
      "quote" := Tool(QuoteTool, Some("CMD+SHIFT+O"), Some(true)),
      "marker" := Tool(MarkerTool, Some("CMD+SHIFT+M"), None),
      "inlinecode" := Tool(InlineCodeTool, Some("CMD+SHIFT+I"), None),
      "delimiter" := Tool(DelimiterTool, None, None),
      "raw" := Tool(RawTool, None, None),
      "checklist" := Tool(ChecklistTool, None, Some(true)),
      "simpleimage" := Tool(SimpleImageTool, None, None),
      "image" := ToolSettings(ImageTool, None, None, Some(uploaderConfig), None),
      "attaches" := ToolSettings(AttachesTool, None, None, Some(uploaderConfig), None),
      "personality" := ToolSettings(PersonalityTool, None, None, Some(uploaderConfig), None),
      AlignmentTune := Tool(AlignmentTuneTool, None, None)
    ]
  }

  /** A name the selection loop lets through: not a file tool, unless files may be read. */
  predicate Admitted(name: string, haveFilesAccess: bool)
  {
    haveFilesAccess || name !in FileRequiresTools
  }

  /**
   * The post-pass of `getTools`: when the alignment tune is enabled, paragraph,
   * header and quote (those present) get `tunes = ['alignmentTune']`.
   */
  function WithAlignmentTunes<C>(tools: map<string, ToolSettings<C>>): (r: map<string, ToolSettings<C>>)
    ensures r.Keys == tools.Keys
    ensures forall name :: name in r && AlignmentTune in tools && name in AlignableTools ==>
      r[name] == tools[name].(tunes := Some([AlignmentTune]))
    ensures forall name :: name in r && (AlignmentTune !in tools || name !in AlignableTools) ==>
      r[name] == tools[name]
  {
    if AlignmentTune !in tools then tools
    else
      var tools1 := if "paragraph" in tools
        then tools["paragraph" := tools["paragraph"].(tunes := Some([AlignmentTune]))] else tools;
      var tools2 := if "header" in tools1
        then tools1["header" := tools1["header"].(tunes := Some([AlignmentTune]))] else tools1;
      if "quote" in tools2
        then tools2["quote" := tools2["quote"].(tunes := Some([AlignmentTune]))] else tools2
  }

  /**
   * `getTools`: a loop copies each admitted, known name of `selection` from the
   * table; then the alignment-tune post-pass runs.
   */
  method GetTools<C>(uploaderConfig: C, selection: seq<string>, haveFilesAccess: bool)
    returns (tools: map<string, ToolSettings<C>>)
    ensures forall name :: name in tools <==>
      name in selection && name in Defaults(uploaderConfig) && Admitted(name, haveFilesAccess)
    ensures forall name :: name in tools && (AlignmentTune !in tools || name !in AlignableTools) ==>
      tools[name] == Defaults(uploaderConfig)[name]
    ensures forall name :: name in tools && AlignmentTune in tools && name in AlignableTools ==>
      tools[name] == Defaults(uploaderConfig)[name].(tunes := Some([AlignmentTune]))
    ensures !haveFilesAccess ==> forall name :: name in FileRequiresTools ==> name !in tools
    ensures forall name :: name in tools && name in FileRequiresTools ==> tools[name].uploader == Some(uploaderConfig)
    ensures forall name :: name in tools && tools[name].tunes.Some? ==>
      name in AlignableTools && AlignmentTune in tools
  {
    var defaults := Defaults(uploaderConfig);
    var selected := map[];
    for i := 0 to |selection|
      invariant forall name :: name in selected <==>
        name in selection[..i] && name in defaults && Admitted(name, haveFilesAccess)
      invariant forall name :: name in selected ==> selected[name] == defaults[name]
    {
      var toolName := selection[i];
      assert selection[..i + 1] == selection[..i] + [toolName];
      if !haveFilesAccess && toolName in FileRequiresTools {
        continue;
      }
      if toolName in defaults {
        selected := selected[toolName := defaults[toolName]];
      }
    }
    assert selection[..|selection|] == selection;
    tools := WithAlignmentTunes(selected);
  }
}
