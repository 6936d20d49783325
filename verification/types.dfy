/** The shared data model of the app: content blocks, notes, chat messages
    and the service response envelope. */
module Types {

  /** An optional value; `None` stands for JavaScript's `undefined`/`null`. */
  datatype Option<+T> = None | Some(value: T) {

    /** The value, or `default` when absent (the `??` operator). */
    function GetOr(default: T): T {
      match this
      case Some(v) => v
      case None => default
    }
  }

  /** One piece of a note's content, tagged by its kind. */
  datatype ContentBlock =
    | Text(value: string)
    | Image(url: string)
    | Audio(url: string, duration: string, transcript: Option<string>, uploading: Option<bool>)

  /** A note: its id, its last-update timestamp and its ordered content. */
  datatype Note = Note(id: string, updatedAt: string, content: seq<ContentBlock>)

  /** Who wrote a chat message (the `type` field of a chat message). */
  datatype Author = User | Ai

  datatype ChatMessage = ChatMessage(text: string, kind: Author, timestamp: int)

  /** The envelope every note-service call answers with; each optional field
      is `None` when the source leaves that property out. */
  datatype ApiResponse<T> = ApiResponse(success: bool, data: Option<T>, error: Option<string>, message: Option<string>)

  /** The input of note creation: content, if the caller gives any. */
  datatype CreateNoteInput = CreateNoteInput(content: Option<seq<ContentBlock>>)

  /** A partial update of a note. */
  datatype UpdateNoteInput = UpdateNoteInput(content: Option<seq<ContentBlock>>, updatedAt: Option<string>)

  /** Index of the first note with id `id`, or -1 (`findIndex`). */
  function FindIndex(notes: seq<Note>, id: string): (r: int)
    ensures -1 <= r < |notes|
    ensures r == -1 <==> forall i :: 0 <= i < |notes| ==> notes[i].id != id
    ensures r >= 0 ==> notes[r].id == id && forall i :: 0 <= i < r ==> notes[i].id != id
  {
    if notes == [] then -1
    else if notes[0].id == id then 0
    else
      var k := FindIndex(notes[1..], id);
      if k == -1 then -1 else k + 1
  }

  /** The three kinds of content block (the `type` tag). */
  datatype BlockKind = TextKind | ImageKind | AudioKind

  function KindOf(b: ContentBlock): BlockKind {
    match b
    case Text(_) => TextKind
    case Image(_) => ImageKind
    case Audio(_, _, _, _) => AudioKind
  }

  /** Number of blocks of kind `k` in `blocks`. */
  function CountKind(blocks: seq<ContentBlock>, k: BlockKind): nat {
    if blocks == [] then 0
    else CountKind(blocks[..|blocks| - 1], k) + (if KindOf(blocks[|blocks| - 1]) == k then 1 else 0)
  }
}
