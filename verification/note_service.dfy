/** The in-memory note store: a module-level list of notes with note-level
    CRUD, block-level edits, text search and per-kind block statistics.
    The clock (`now`), the id generator (`freshId`) and the date parsing
    used as the sort key (`dateKey`) are parameters. */
module NoteService {
  import opened Types
  import opened JsText

  const NotFound := "Note not found"
  const InvalidBlockIndex := "Invalid block index"

  const DemoAudioUrl :=
    "https://api.freedomai.fun/v1/storage/buckets/689b2283000a1eb4930c/files/689b2294000e0c2dfbbc/view?project=689c404400138a4a5f2d"
  const ImageWoman := "https://cdn.pixabay.com/photo/2025/07/31/20/00/woman-9747618_1280.jpg"
  const ImageTrees := "https://cdn.pixabay.com/photo/2025/04/24/01/29/trees-9554109_1280.jpg"
  const GoGlobal :=
    "If you want to make a product that can go global, it is not enough to just translate the language."
  const Translate := "It is not enough to just translate the language."
  const Principles :=
    "The key is to master two principles: to maintain the core functions that are universal globally, and to make special adjustments for different regions."
  const MultipleKinds := "This note has multiple images and audio."
  const DemoTranscript := "Demo audio with transcript support"
  const MultipleTranscript := "Multiple content types in one note"

  /** The five notes the store starts with. */
  function SeedNotes(): seq<Note> {
    [ Note("1", "2025/08/11 10:24", [Text(GoGlobal), Image(ImageWoman)]),
      Note("3", "2025/06/16 12:24", [Text(Translate), Audio(DemoAudioUrl, "00:12", Some(DemoTranscript), None)]),
      Note("2", "2025/06/15 09:15", [Text(Principles)]),
      Note("4", "2025/08/11 10:24", [Text(GoGlobal), Image(ImageWoman)]),
      Note("5", "2025/08/11 10:24",
           [ Text(MultipleKinds),
             Image(ImageTrees),
             Image(ImageWoman),
             Audio(DemoAudioUrl, "00:12", Some(MultipleTranscript), None) ]) ]
  }

  // ----- lookup -----

  /** The first note with id `id`, if any (`find`). */
  function Find(notes: seq<Note>, id: string): (r: Option<Note>)
    ensures r.None? <==> forall i :: 0 <= i < |notes| ==> notes[i].id != id
    ensures r.Some? ==>
      exists k :: 0 <= k < |notes| && notes[k] == r.value && r.value.id == id
                  && forall j :: 0 <= j < k ==> notes[j].id != id
  {
    var k := FindIndex(notes, id);
    if k < 0 then None else Some(notes[k])
  }

  // ----- deletion filter -----

  /** The notes whose id differs from `id`, in their original order. */
  function WithoutId(notes: seq<Note>, id: string): (r: seq<Note>)
    ensures forall n :: n in r ==> n in notes && n.id != id
    ensures forall n :: n in notes && n.id != id ==> n in r
    ensures |r| == |notes| <==> forall i :: 0 <= i < |notes| ==> notes[i].id != id
    ensures |r| <= |notes|
  {
    if notes == [] then []
    else if notes[0].id == id then WithoutId(notes[1..], id)
    else [notes[0]] + WithoutId(notes[1..], id)
  }

  /** Filtering distributes over concatenation, so the survivors keep
      their relative order. */
  lemma {:induction false} WithoutIdAppend(a: seq<Note>, b: seq<Note>, id: string)
    ensures WithoutId(a + b, id) == WithoutId(a, id) + WithoutId(b, id)
  {
    if a == [] {
      assert a + b == b;
    } else {
      var ab := a + b;
      assert ab[0] == a[0] && ab[1..] == a[1..] + b;
      WithoutIdAppend(a[1..], b, id);
      if a[0].id == id {
        calc {
          WithoutId(ab, id);
          WithoutId(ab[1..], id);
          WithoutId(a[1..] + b, id);
          WithoutId(a[1..], id) + WithoutId(b, id);
        }
      } else {
        calc {
          WithoutId(ab, id);
          [ab[0]] + WithoutId(ab[1..], id);
          [a[0]] + WithoutId(a[1..] + b, id);
          [a[0]] + (WithoutId(a[1..], id) + WithoutId(b, id));
          ([a[0]] + WithoutId(a[1..], id)) + WithoutId(b, id);
        }
      }
    }
  }

  // ----- sorting by updatedAt, newest first -----

  /** Keys never increase along `s`. */
  predicate SortedDesc(s: seq<Note>, dateKey: string -> int) {
    forall i, j :: 0 <= i < j < |s| ==> dateKey(s[i].updatedAt) >= dateKey(s[j].updatedAt)
  }

  /** Places `n` before the first note whose key is not larger than its own. */
  function InsertDesc(n: Note, s: seq<Note>, dateKey: string -> int): (r: seq<Note>)
    requires SortedDesc(s, dateKey)
    ensures SortedDesc(r, dateKey)
    ensures multiset(r) == multiset(s) + multiset{n}
    ensures |r| == |s| + 1 && (r[0] == n || (s != [] && r[0] == s[0]))
  {
    if s == [] || dateKey(n.updatedAt) >= dateKey(s[0].updatedAt) then
      ConsSorted(n, s, dateKey);
      [n] + s
    else
      SortedTail(s, dateKey);
      var rest := InsertDesc(n, s[1..], dateKey);
      assert dateKey(s[0].updatedAt) >= dateKey(rest[0].updatedAt) by {
        if rest[0] != n {
          assert rest[0] == s[1];
        }
      }
      ConsSorted(s[0], rest, dateKey);
      assert multiset(s) == multiset{s[0]} + multiset(s[1..]) by {
        assert s == [s[0]] + s[1..];
      }
      assert multiset([s[0]] + rest) == multiset{s[0]} + multiset(rest);
      [s[0]] + rest
  }

  /** The tail of a sorted list is sorted. */
  lemma SortedTail(s: seq<Note>, dateKey: string -> int)
    requires s != [] && SortedDesc(s, dateKey)
    ensures SortedDesc(s[1..], dateKey)
  {
    var t := s[1..];
    forall i, j | 0 <= i < j < |t| ensures dateKey(t[i].updatedAt) >= dateKey(t[j].updatedAt) {
      assert t[i] == s[i + 1] && t[j] == s[j + 1];
    }
  }

  /** A note no older than the head of a sorted list may be put in front of it. */
  lemma ConsSorted(x: Note, t: seq<Note>, dateKey: string -> int)
    requires SortedDesc(t, dateKey)
    requires t == [] || dateKey(x.updatedAt) >= dateKey(t[0].updatedAt)
    ensures SortedDesc([x] + t, dateKey)
  {
    var xt := [x] + t;
    forall i, j | 0 <= i < j < |xt| ensures dateKey(xt[i].updatedAt) >= dateKey(xt[j].updatedAt) {
      if i == 0 && j > 1 {
        assert xt[j] == t[j - 1];
      }
    }
  }

  /** The comparator sort of the store: newest `updatedAt` first, notes with
      equal keys in their original order. The result is sorted and a
      permutation of the input. */
  function SortDesc(s: seq<Note>, dateKey: string -> int): (r: seq<Note>)
    ensures SortedDesc(r, dateKey)
    ensures multiset(r) == multiset(s)
  {
    if s == [] then []
    else
      assert s == [s[0]] + s[1..];
      InsertDesc(s[0], SortDesc(s[1..], dateKey), dateKey)
  }

  /** A list already in order comes back unchanged: the sort never reorders
      notes it does not have to. */
  lemma {:induction false} SortDescOfSorted(s: seq<Note>, dateKey: string -> int)
    requires SortedDesc(s, dateKey)
    ensures SortDesc(s, dateKey) == s
  {
    if s != [] {
      assert SortedDesc(s[1..], dateKey);
      SortDescOfSorted(s[1..], dateKey);
      assert s == [s[0]] + s[1..];
    }
  }

  // ----- search -----

  /** Some text block of `content` contains `q` once lower-cased. */
  predicate HasTextMatch(content: seq<ContentBlock>, q: string) {
    exists i :: 0 <= i < |content| && content[i].Text? && Includes(ToLower(content[i].value), q)
  }

  /** The notes having a matching text block, in store order: each
      matching note as often as it is stored, no other note at all. */
  function Matching(notes: seq<Note>, q: string): (r: seq<Note>)
    ensures forall n :: n in r <==> n in notes && HasTextMatch(n.content, q)
    ensures forall n :: multiset(r)[n] == if HasTextMatch(n.content, q) then multiset(notes)[n] else 0
    ensures |r| <= |notes|
  {
    if notes == [] then []
    else
      assert notes == [notes[0]] + notes[1..];
      if HasTextMatch(notes[0].content, q) then [notes[0]] + Matching(notes[1..], q)
      else Matching(notes[1..], q)
  }

  /** Filtering distributes over concatenation, so the hits keep the
      store's order. */
  lemma {:induction false} MatchingAppend(a: seq<Note>, b: seq<Note>, q: string)
    ensures Matching(a + b, q) == Matching(a, q) + Matching(b, q)
  {
    if a == [] {
      assert a + b == b;
    } else {
      var ab := a + b;
      assert ab[0] == a[0] && ab[1..] == a[1..] + b;
      MatchingAppend(a[1..], b, q);
      if HasTextMatch(a[0].content, q) {
        calc {
          Matching(ab, q);
          [a[0]] + Matching(a[1..] + b, q);
          [a[0]] + (Matching(a[1..], q) + Matching(b, q));
          ([a[0]] + Matching(a[1..], q)) + Matching(b, q);
        }
      } else {
        calc {
          Matching(ab, q);
          Matching(a[1..] + b, q);
          Matching(a[1..], q) + Matching(b, q);
        }
      }
    }
  }

  /** The search reply for the non-blank query `q`, whose untrimmed form
      was `query`. */
  function SearchHits(notes: seq<Note>, q: string, query: string, dateKey: string -> int): ApiResponse<seq<Note>> {
    var hits := SortDesc(Matching(notes, q), dateKey);
    ApiResponse(true, Some(hits), None,
                Some("Found " + Decimal(|hits|) + " notes matching \"" + query + "\""))
  }

  // ----- statistics -----

  datatype NotesStats = NotesStats(totalNotes: nat, totalTextBlocks: nat, totalImageBlocks: nat, totalAudioBlocks: nat)

  /** Number of blocks of kind `k` over all notes. */
  function NotesCountKind(notes: seq<Note>, k: BlockKind): nat {
    if notes == [] then 0
    else NotesCountKind(notes[..|notes| - 1], k) + CountKind(notes[|notes| - 1].content, k)
  }

  /** Number of blocks over all notes. */
  function TotalBlocks(notes: seq<Note>): nat {
    if notes == [] then 0 else TotalBlocks(notes[..|notes| - 1]) + |notes[|notes| - 1].content|
  }

  /** Every block has exactly one of the three kinds. */
  lemma {:induction false} KindsPartitionBlocks(blocks: seq<ContentBlock>)
    ensures CountKind(blocks, TextKind) + CountKind(blocks, ImageKind) + CountKind(blocks, AudioKind) == |blocks|
  {
    if blocks != [] {
      KindsPartitionBlocks(blocks[..|blocks| - 1]);
    }
  }

  /** The three per-kind totals add up to the number of blocks in the store. */
  lemma {:induction false} StatsPartitionBlocks(notes: seq<Note>)
    ensures NotesCountKind(notes, TextKind) + NotesCountKind(notes, ImageKind) + NotesCountKind(notes, AudioKind)
            == TotalBlocks(notes)
  {
    if notes != [] {
      StatsPartitionBlocks(notes[..|notes| - 1]);
      KindsPartitionBlocks(notes[|notes| - 1].content);
    }
  }

  // ----- the store -----

  /** The module-level `_notes` array and the operations over it. */
  class NoteStore {
    var notes: seq<Note>

    constructor()
      ensures notes == SeedNotes()
    {
      notes := SeedNotes();
    }

    /** The notes sorted newest first, as a copy; the store is not touched. */
    function ListNotes(dateKey: string -> int): (r: ApiResponse<seq<Note>>)
      reads this
      ensures r.success && r.data.Some? && r.error.None? && r.message.None?
      ensures SortedDesc(r.data.value, dateKey)
      ensures multiset(r.data.value) == multiset(notes)
    {
      ApiResponse(true, Some(SortDesc(notes, dateKey)), None, None)
    }

    /** The first note with id `id`, or null; the lookup always succeeds. */
    function GetNoteById(id: string): (r: ApiResponse<Option<Note>>)
      reads this
      ensures r.success && r.data.Some? && r.error.None?
      ensures r.data.value.None? <==> forall i :: 0 <= i < |notes| ==> notes[i].id != id
      ensures r.data.value.Some? ==>
        exists k :: 0 <= k < |notes| && notes[k] == r.data.value.value && notes[k].id == id
                    && forall j :: 0 <= j < k ==> notes[j].id != id
    {
      ApiResponse(true, Some(Find(notes, id)), None, None)
    }

    /** Inserts a new note at the front of the store. */
    method CreateNote(input: CreateNoteInput, freshId: string, now: string) returns (r: ApiResponse<Note>)
      modifies this
      ensures |notes| == |old(notes)| + 1 && notes[1..] == old(notes)
      ensures notes[0] == Note(freshId, now, input.content.GetOr([Text("")]))
      ensures input.content.None? ==> notes[0].content == [Text("")]
      ensures r == ApiResponse(true, Some(notes[0]), None, Some("Note created successfully"))
    {
      var note := Note(freshId, now, input.content.GetOr([Text("")]));
      notes := [note] + notes;
      r := ApiResponse(true, Some(note), None, Some("Note created successfully"));
    }

    /** Overwrites the content of the first note with id `id` when the patch
        carries one, and always stamps it with `now`. */
    method UpdateNote(id: string, patch: UpdateNoteInput, now: string) returns (r: ApiResponse<Option<Note>>)
      modifies this
      ensures var k := FindIndex(old(notes), id);
        if k < 0 then
          && notes == old(notes)
          && r == ApiResponse(false, Some(None), Some(NotFound), None)
        else
          && |notes| == |old(notes)|
          && notes == old(notes)[k := Note(id, now, patch.content.GetOr(old(notes)[k].content))]
          && r == ApiResponse(true, Some(Some(notes[k])), None, Some("Note updated successfully"))
    {
      var k := FindIndex(notes, id);
      if k < 0 {
        return ApiResponse(false, Some(None), Some(NotFound), None);
      }
      var prev := notes[k];
      notes := notes[k := Note(prev.id, now, patch.content.GetOr(prev.content))];
      r := ApiResponse(true, Some(Some(notes[k])), None, Some("Note updated successfully"));
    }

    /** Removes every note with id `id`; fails when none was removed. */
    method DeleteNote(id: string) returns (r: ApiResponse<()>)
      modifies this
      ensures notes == WithoutId(old(notes), id)
      ensures (forall i :: 0 <= i < |old(notes)| ==> old(notes)[i].id != id) ==> notes == old(notes)
      ensures r.success <==> exists i :: 0 <= i < |old(notes)| && old(notes)[i].id == id
      ensures r == if r.success then ApiResponse(true, None, None, Some("Note deleted successfully"))
                   else ApiResponse(false, None, Some(NotFound), None)
    {
      var initialLength := |notes|;
      var before := notes;
      notes := WithoutId(notes, id);
      if |notes| == initialLength {
        WithoutIdUnchanged(before, id);
        return ApiResponse(false, None, Some(NotFound), None);
      }
      r := ApiResponse(true, None, None, Some("Note deleted successfully"));
    }

    /** Adds `block` at the end of the first note with id `id`. */
    method AppendBlock(id: string, block: ContentBlock, now: string) returns (r: ApiResponse<Option<Note>>)
      modifies this
      ensures var k := FindIndex(old(notes), id);
        if k < 0 then
          && notes == old(notes)
          && r == ApiResponse(false, Some(None), Some(NotFound), None)
        else
          && notes == old(notes)[k := Note(id, now, old(notes)[k].content + [block])]
          && r == ApiResponse(true, Some(Some(notes[k])), None, Some("Content block added successfully"))
    {
      var k := FindIndex(notes, id);
      if k < 0 {
        return ApiResponse(false, Some(None), Some(NotFound), None);
      }
      var prev := notes[k];
      notes := notes[k := Note(prev.id, now, prev.content + [block])];
      r := ApiResponse(true, Some(Some(notes[k])), None, Some("Content block added successfully"));
    }

    /** Replaces block `index` of the first note with id `id`. */
    method ReplaceBlockAt(id: string, index: int, block: ContentBlock, now: string) returns (r: ApiResponse<Option<Note>>)
      modifies this
      ensures var k := FindIndex(old(notes), id);
        if k < 0 then
          && notes == old(notes)
          && r == ApiResponse(false, Some(None), Some(NotFound), None)
        else if index < 0 || index >= |old(notes)[k].content| then
          && notes == old(notes)
          && r == ApiResponse(false, Some(None), Some(InvalidBlockIndex), None)
        else
          && notes == old(notes)[k := Note(id, now, old(notes)[k].content[index := block])]
          && r == ApiResponse(true, Some(Some(notes[k])), None, Some("Content block updated successfully"))
    {
      var k := FindIndex(notes, id);
      if k < 0 {
        return ApiResponse(false, Some(None), Some(NotFound), None);
      }
      var prev := notes[k];
      if index < 0 || index >= |prev.content| {
        return ApiResponse(false, Some(None), Some(InvalidBlockIndex), None);
      }
      notes := notes[k := Note(prev.id, now, prev.content[index := block])];
      r := ApiResponse(true, Some(Some(notes[k])), None, Some("Content block updated successfully"));
    }

    /** Removes block `index` of the first note with id `id`; later blocks
        shift left by one. */
    method RemoveBlockAt(id: string, index: int, now: string) returns (r: ApiResponse<Option<Note>>)
      modifies this
      ensures var k := FindIndex(old(notes), id);
        if k < 0 then
          && notes == old(notes)
          && r == ApiResponse(false, Some(None), Some(NotFound), None)
        else if index < 0 || index >= |old(notes)[k].content| then
          && notes == old(notes)
          && r == ApiResponse(false, Some(None), Some(InvalidBlockIndex), None)
        else
          && notes == old(notes)[k := Note(id, now, old(notes)[k].content[..index] + old(notes)[k].content[index + 1..])]
          && |notes[k].content| == |old(notes)[k].content| - 1
          && r == ApiResponse(true, Some(Some(notes[k])), None, Some("Content block removed successfully"))
    {
      var k := FindIndex(notes, id);
      if k < 0 {
        return ApiResponse(false, Some(None), Some(NotFound), None);
      }
      var prev := notes[k];
      if index < 0 || index >= |prev.content| {
        return ApiResponse(false, Some(None), Some(InvalidBlockIndex), None);
      }
      notes := notes[k := Note(prev.id, now, prev.content[..index] + prev.content[index + 1..])];
      r := ApiResponse(true, Some(Some(notes[k])), None, Some("Content block removed successfully"));
    }

    /** Notes with a text block containing the lower-cased, trimmed query,
        newest first; a blank query lists every note. */
    function SearchNotes(query: string, dateKey: string -> int): (r: ApiResponse<seq<Note>>)
      reads this
      ensures Trim(ToLower(query)) == "" ==> r == ListNotes(dateKey)
      ensures r.success && r.data.Some? && SortedDesc(r.data.value, dateKey)
      ensures Trim(ToLower(query)) != "" ==>
        && (forall n :: n in r.data.value <==> n in notes && HasTextMatch(n.content, Trim(ToLower(query))))
        && (forall n :: multiset(r.data.value)[n] ==
              if HasTextMatch(n.content, Trim(ToLower(query))) then multiset(notes)[n] else 0)
        && r.error.None?
        && r.message == Some("Found " + Decimal(|r.data.value|) + " notes matching \"" + query + "\"")
    {
      var q := Trim(ToLower(query));
      if q == "" then ListNotes(dateKey)
      else
        var hits := SortDesc(Matching(notes, q), dateKey);
        assert forall n :: n in hits <==> n in multiset(hits);
        SearchHits(notes, q, query, dateKey)
    }

    /** The per-kind block counts, accumulated note by note and block by block. */
    method GetNotesStats() returns (r: ApiResponse<NotesStats>)
      ensures r.success && r.data.Some? && r.error.None? && r.message.None?
      ensures r.data.value.totalNotes == |notes|
      ensures r.data.value.totalTextBlocks == NotesCountKind(notes, TextKind)
      ensures r.data.value.totalImageBlocks == NotesCountKind(notes, ImageKind)
      ensures r.data.value.totalAudioBlocks == NotesCountKind(notes, AudioKind)
    {
      var acc := NotesStats(0, 0, 0, 0);
      var i := 0;
      while i < |notes|
        invariant 0 <= i <= |notes|
        invariant acc.totalNotes == i
        invariant acc.totalTextBlocks == NotesCountKind(notes[..i], TextKind)
        invariant acc.totalImageBlocks == NotesCountKind(notes[..i], ImageKind)
        invariant acc.totalAudioBlocks == NotesCountKind(notes[..i], AudioKind)
      {
        var blocks := notes[i].content;
        var text, image, audio := 0, 0, 0;
        var j := 0;
        while j < |blocks|
          invariant 0 <= j <= |blocks|
          invariant text == CountKind(blocks[..j], TextKind)
          invariant image == CountKind(blocks[..j], ImageKind)
          invariant audio == CountKind(blocks[..j], AudioKind)
        {
          assert blocks[..j + 1][..j] == blocks[..j];
          match blocks[j] {
            case Text(_) => text := text + 1;
            case Image(_) => image := image + 1;
            case Audio(_, _, _, _) => audio := audio + 1;
          }
          j := j + 1;
        }
        assert blocks[..j] == blocks;
        assert notes[..i + 1][..i] == notes[..i];
        acc := NotesStats(acc.totalNotes + 1, acc.totalTextBlocks + text,
                          acc.totalImageBlocks + image, acc.totalAudioBlocks + audio);
        i := i + 1;
      }
      assert notes[..i] == notes;
      r := ApiResponse(true, Some(acc), None, None);
    }
  }

  /** Search ignores the case of ASCII letters in the query: two queries
      that differ only in case find the same notes. */
  lemma SearchIgnoresCase(store: NoteStore, q1: string, q2: string, dateKey: string -> int)
    requires EqualIgnoringCase(q1, q2)
    ensures store.SearchNotes(q1, dateKey).data == store.SearchNotes(q2, dateKey).data
  {
    ToLowerIgnoresCase(q1, q2);
  }

  /** Filtering out an absent id gives back the same list. */
  lemma {:induction false} WithoutIdUnchanged(notes: seq<Note>, id: string)
    requires |WithoutId(notes, id)| == |notes|
    ensures WithoutId(notes, id) == notes
  {
    if notes != [] {
      assert notes[0].id != id;
      WithoutIdUnchanged(notes[1..], id);
    }
  }
}
