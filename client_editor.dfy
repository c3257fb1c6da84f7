/** The browser's code editor: the editor mode chosen from the file name,
    and the edit buffer with its unsaved-changes flag. */
module ClientEditor {
  import opened Wrappers
  import opened Text

  // ---------------------------------------------------------------------
  // getMode
  // ---------------------------------------------------------------------

  /** The `switch` on the extension. */
  function ModeOf(ext: string): string
  {
    match ext
    case "py" => "python"
    case "js" => "javascript"
    case "ts" => "typescript"
    case "json" => "json"
    case "md" => "markdown"
    case "html" => "html"
    case "htm" => "html"
    case "css" => "css"
    case _ => "text"
  }

  /** A JavaScript string or `null` is truthy when it is a non-empty string. */
  predicate Truthy(path: Option<string>)
  {
    path.Some? && path.value != ""
  }

  /** `getMode(path)`: "text" for no path, otherwise the mode of
      `path.split('.').pop()`. */
  function GetMode(path: Option<string>): (mode: string)
    ensures mode in {"text", "python", "javascript", "typescript", "json", "markdown", "html", "css"}
  {
    if !Truthy(path) then "text"
    else
      var pieces := SplitOn(path.value, '.');
      ModeOf(pieces[|pieces| - 1])
  }

  /** The last piece of a split on '.' is the text after the last dot. */
  lemma {:induction false} LastPiece(a: string, b: string)
    requires '.' !in b
    ensures var pieces := SplitOn(a + ['.'] + b, '.'); |pieces| >= 2 && pieces[|pieces| - 1] == b
  {
    var s := a + ['.'] + b;
    if a == [] {
      assert s == ['.'] + b && s[1..] == b;
      SplitOnFree(b, '.');
    } else {
      LastPiece(a[1..], b);
      assert s[1..] == a[1..] + ['.'] + b;
    }
  }

  /** The mode is decided by the text after the last dot of the path. */
  lemma ModeByExtension(stem: string, ext: string)
    requires '.' !in ext
    ensures GetMode(Some(stem + "." + ext)) == ModeOf(ext)
  {
    LastPiece(stem, ext);
    assert stem + "." + ext == stem + ['.'] + ext;
  }

  /** Without a dot the whole path is taken as the extension, so a file
      called "md" is edited as markdown. */
  lemma ModeWithoutDot(path: string)
    requires path != "" && '.' !in path
    ensures GetMode(Some(path)) == ModeOf(path)
    ensures GetMode(Some("md")) == "markdown"
  {
    SplitOnFree(path, '.');
    SplitOnFree("md", '.');
  }

  // ---------------------------------------------------------------------
  // The edit buffer
  // ---------------------------------------------------------------------

  /** The component's props (`filePath`, `fileContent`, `isLoading`), its
      state (`currentContent`, `isDirty`), and the `onSave` calls it made. */
  class Editor {
    var filePath: Option<string>
    var fileContent: string
    var loading: bool
    var current: string
    var dirty: bool
    var saves: seq<(string, string)>

    /** Mounting: the buffer starts as the file's content, unmodified. */
    constructor (filePath: Option<string>, fileContent: string, loading: bool)
      ensures this.filePath == filePath && this.fileContent == fileContent && this.loading == loading
      ensures current == fileContent && !dirty && saves == []
    {
      this.filePath := filePath;
      this.fileContent := fileContent;
      this.loading := loading;
      current := fileContent;
      dirty := false;
      saves := [];
    }

    /** The Save button's `disabled`. */
    function SaveDisabled(): bool
      reads this
    {
      !dirty || !Truthy(filePath) || loading
    }

    /** The editor's `onChange`: the buffer takes the new text and is
        marked modified. */
    method OnChange(text: string)
      modifies this
      ensures current == text && dirty
      ensures filePath == old(filePath) && fileContent == old(fileContent) && loading == old(loading)
      ensures saves == old(saves)
    {
      current := text;
      dirty := true;
    }

    /** `handleSave`: with a path and unsaved changes, `onSave` gets the
        path and the buffer and the changes count as saved; otherwise
        nothing happens. An enabled button therefore always saves. */
    method HandleSave()
      modifies this
      ensures filePath == old(filePath) && fileContent == old(fileContent) && loading == old(loading)
      ensures current == old(current)
      ensures Truthy(filePath) && old(dirty) ==> saves == old(saves) + [(filePath.value, current)] && !dirty
      ensures !(Truthy(filePath) && old(dirty)) ==> saves == old(saves) && dirty == old(dirty)
      ensures !old(SaveDisabled()) ==> |saves| == |old(saves)| + 1 && SaveDisabled()
    {
      if Truthy(filePath) && dirty {
        saves := saves + [(filePath.value, current)];
        dirty := false;
      }
    }

    /** New props. When the path or the content changed, the effect resets
        the buffer to the content and clears the modified flag; when
        neither changed, the buffer and its flag are kept. */
    method Rerender(path: Option<string>, content: string, isLoading: bool)
      modifies this
      ensures filePath == path && fileContent == content && loading == isLoading && saves == old(saves)
      ensures path != old(filePath) || content != old(fileContent) ==> current == content && !dirty
      ensures path == old(filePath) && content == old(fileContent) ==> current == old(current) && dirty == old(dirty)
    {
      if path != filePath || content != fileContent {
        current := content;
        dirty := false;
      }
      filePath := path;
      fileContent := content;
      loading := isLoading;
    }
  }
}
