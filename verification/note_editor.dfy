/** The note editor screen: the content it opens with (an existing note
    from its fixed sample database, or a greeting prompt followed by an
    empty text block), text edits and appended images. The hour of day and
    the outcome of the photo-library dialogs are parameters. */
module Editor {
  import opened Types
  import opened JsText

  /** A block of the editor: a read-only prompt or an ordinary content block. */
  datatype EditorBlock = Prompt(value: string) | Block(block: ContentBlock)

  const SharePrompt := "\nWhat do you want to share with me today?"

  const GoGlobalText := "If you want to make a product that can go global, it is not enough to just translate the language."
  const WomanImageUrl := "https://cdn.pixabay.com/photo/2025/07/31/20/00/woman-9747618_1280.jpg"
  const TranslateText := "It is not enough to just translate the language."
  const PrinciplesText :=
    "The key is to master two principles: to maintain the core functions that are universal globally, and to make special adjustments for different regions."

  /** The three sample notes the editor looks note ids up in. */
  function FakeNotes(): seq<Note> {
    [ Note("1", "2025/08/11 10:24", [Text(GoGlobalText), Image(WomanImageUrl)]),
      Note("3", "2025/06/16 12:24", [Text(TranslateText), Audio("path/to/audio.mp3", "10\"", None, None)]),
      Note("2", "2025/06/15 09:15", [Text(PrinciplesText)]) ]
  }

  /** The greeting for the hour of day: morning before noon, evening after. */
  function Greeting(hour: int): (r: string)
    ensures hour < 12 ==> r == "Good morning, Mike."
    ensures hour >= 12 ==> r == "Good evening, Mike."
  {
    "Good " + (if hour < 12 then "morning" else "evening") + ", Mike."
  }

  /** The blocks of a note, as editor blocks. */
  function AsEditorBlocks(blocks: seq<ContentBlock>): (r: seq<EditorBlock>)
    ensures |r| == |blocks| && forall i :: 0 <= i < |blocks| ==> r[i] == Block(blocks[i])
  {
    if blocks == [] then [] else [Block(blocks[0])] + AsEditorBlocks(blocks[1..])
  }

  /** The content of a new note: the greeting prompt and one empty text block. */
  function NewNoteContent(hour: int): (r: seq<EditorBlock>)
    ensures |r| == 2 && r[1] == Block(Text(""))
    ensures r[0].Prompt? && StartsWith(r[0].value, Greeting(hour))
  {
    [Prompt(Greeting(hour) + SharePrompt), Block(Text(""))]
  }

  /** The content after the loading effect runs for `noteId` over the notes
      `db`: a non-empty id loads the first matching note, or keeps `current`
      when none matches; a missing or empty id starts a new note. */
  function InitialContent(db: seq<Note>, noteId: Option<string>, hour: int, current: seq<EditorBlock>): (r: seq<EditorBlock>)
    ensures noteId.None? || noteId.value == "" ==> r == NewNoteContent(hour)
    ensures noteId.Some? && noteId.value != "" ==>
      (exists k :: 0 <= k < |db| && db[k].id == noteId.value && r == AsEditorBlocks(db[k].content)
                   && forall j :: 0 <= j < k ==> db[j].id != noteId.value)
      || ((forall k :: 0 <= k < |db| ==> db[k].id != noteId.value) && r == current)
  {
    if noteId.Some? && noteId.value != "" then
      var k := FindIndex(db, noteId.value);
      if k >= 0 then AsEditorBlocks(db[k].content) else current
    else NewNoteContent(hour)
  }


  /** The content after typing `newText` into block `i`: only an existing
      text block changes; anything else leaves the content as it was. */
  function EditText(content: seq<EditorBlock>, newText: string, i: int): (r: seq<EditorBlock>)
    ensures |r| == |content|
    ensures forall j :: 0 <= j < |content| && j != i ==> r[j] == content[j]
    ensures IsTextAt(content, i) ==> r[i] == Block(Text(newText))
    ensures !IsTextAt(content, i) ==> r == content
  {
    if IsTextAt(content, i) then content[i := Block(Text(newText))] else content
  }

  /** Block `i` exists and is a text block. */
  predicate IsTextAt(content: seq<EditorBlock>, i: int) {
    0 <= i < |content| && content[i].Block? && content[i].block.Text?
  }

  /** Editing never adds, removes or retypes a block. */
  lemma EditKeepsShape(content: seq<EditorBlock>, newText: string, i: int)
    ensures forall j :: 0 <= j < |content| ==>
      IsTextAt(EditText(content, newText, i), j) == IsTextAt(content, j)
  {
  }

  /** Typing the same text twice is the same as typing it once. */
  lemma EditIdempotent(content: seq<EditorBlock>, newText: string, i: int)
    ensures EditText(EditText(content, newText, i), newText, i) == EditText(content, newText, i)
  {
    var once := EditText(content, newText, i);
    if IsTextAt(content, i) {
      assert IsTextAt(once, i);
      assert EditText(once, newText, i) == once[i := Block(Text(newText))];
    }
  }

  /** The outcome of the photo-library picker. */
  datatype PickerResult = Canceled | Picked(assetUris: seq<string>)

  /** How adding an image ended: permission refused, picker cancelled,
      image appended, or a picked result without assets (reading the first
      asset throws). */
  datatype AddImageOutcome = PermissionDenied | PickerCanceled | Appended | NoAssets

  class NoteEditor {
    /** The notes ids are looked up in. */
    const db: seq<Note>
    var content: seq<EditorBlock>
    var isLoading: bool

    /** The screen mounts empty and loading, over the sample notes. */
    constructor()
      ensures db == FakeNotes() && content == [] && isLoading
    {
      db := FakeNotes();
      content := [];
      isLoading := true;
    }

    /** The loading effect: sets the initial content and ends loading. */
    method Initialise(noteId: Option<string>, hour: int)
      modifies this
      ensures content == InitialContent(db, noteId, hour, old(content))
      ensures !isLoading
    {
      if noteId.Some? && noteId.value != "" {
        var k := FindIndex(db, noteId.value);
        if k >= 0 {
          content := AsEditorBlocks(db[k].content);
        }
      } else {
        content := NewNoteContent(hour);
      }
      isLoading := false;
    }

    /** `handleTextChange`. */
    method HandleTextChange(newText: string, blockIndex: int)
      modifies this
      ensures content == EditText(old(content), newText, blockIndex)
      ensures isLoading == old(isLoading)
    {
      if 0 <= blockIndex < |content| && content[blockIndex].Block? && content[blockIndex].block.Text? {
        content := content[blockIndex := Block(Text(newText))];
      }
    }

    /** `handleAddImage`, with the permission answer and the picker result
        as parameters: only a granted, non-cancelled pick appends an image
        block with the first asset's uri at the end. */
    method HandleAddImage(granted: bool, picked: PickerResult) returns (outcome: AddImageOutcome)
      modifies this
      ensures !granted ==> outcome == PermissionDenied
      ensures granted && picked.Canceled? ==> outcome == PickerCanceled
      ensures granted && picked.Picked? && picked.assetUris == [] ==> outcome == NoAssets
      ensures outcome == Appended <==> granted && picked.Picked? && picked.assetUris != []
      ensures outcome == Appended ==> content == old(content) + [Block(Image(picked.assetUris[0]))]
      ensures outcome != Appended ==> content == old(content)
      ensures isLoading == old(isLoading)
    {
      if !granted {
        return PermissionDenied;
      }
      match picked
      case Canceled =>
        outcome := PickerCanceled;
      case Picked(uris) =>
        if uris == [] {
          outcome := NoAssets;
        } else {
          content := content + [Block(Image(uris[0]))];
          outcome := Appended;
        }
    }
  }

  /** Opening sample note "3" loads its blocks, the text and then the
      recording, whatever the hour and the content before. */
  lemma OpenSampleNote(hour: int, current: seq<EditorBlock>)
    ensures InitialContent(FakeNotes(), Some("3"), hour, current)
            == [Block(Text(TranslateText)), Block(Audio("path/to/audio.mp3", "10\"", None, None))]
  {
    var db := FakeNotes();
    assert db[0].id == "1" && db[1].id == "3";
    assert FindIndex(db, "3") == 1;
    assert AsEditorBlocks(db[1].content)
           == [Block(Text(TranslateText)), Block(Audio("path/to/audio.mp3", "10\"", None, None))];
  }
}
