/** The note preview card: what it extracts from a note's blocks (the
    first text, every image, the first recording) and which parts of the
    card are shown. Rendering itself is abstracted to the `CardView` record
    of what appears. */
module NoteCard {
  import opened Types
  import opened JsText

  /** Index of the first block of kind `k`, or -1 (`find`). */
  function FirstOfKind(blocks: seq<ContentBlock>, k: BlockKind): (r: int)
    ensures -1 <= r < |blocks|
    ensures r == -1 <==> forall i :: 0 <= i < |blocks| ==> KindOf(blocks[i]) != k
    ensures r >= 0 ==>
      KindOf(blocks[r]) == k && forall i :: 0 <= i < r ==> KindOf(blocks[i]) != k
  {
    if blocks == [] then -1
    else if KindOf(blocks[0]) == k then 0
    else
      var i := FirstOfKind(blocks[1..], k);
      if i == -1 then -1 else i + 1
  }

  /** The preview text: the value of the first text block, or "" when
      there is none (`?.value || ''`). */
  function TextContent(blocks: seq<ContentBlock>): (r: string)
    ensures (forall i :: 0 <= i < |blocks| ==> !blocks[i].Text?) ==> r == ""
    ensures forall i :: 0 <= i < |blocks| && blocks[i].Text? && (forall j :: 0 <= j < i ==> !blocks[j].Text?)
              ==> r == blocks[i].value
  {
    var i := FirstOfKind(blocks, TextKind);
    if i < 0 then "" else blocks[i].value
  }

  /** The image blocks, in their original order (`filter`). */
  function ImageBlocks(blocks: seq<ContentBlock>): (r: seq<ContentBlock>)
    ensures forall x :: x in r <==> x in blocks && x.Image?
    ensures |r| == CountKind(blocks, ImageKind)
  {
    if blocks == [] then []
    else
      var init := blocks[..|blocks| - 1];
      var last := blocks[|blocks| - 1];
      assert blocks == init + [last];
      ImageBlocks(init) + (if last.Image? then [last] else [])
  }

  /** Filtering distributes over concatenation: the order of images is
      the order of the blocks. */
  lemma {:induction false} ImageBlocksAppend(a: seq<ContentBlock>, b: seq<ContentBlock>)
    ensures ImageBlocks(a + b) == ImageBlocks(a) + ImageBlocks(b)
  {
    if b == [] {
      assert a + b == a;
    } else {
      var init := b[..|b| - 1];
      var last := b[|b| - 1];
      var tail := if last.Image? then [last] else [];
      var ab := a + b;
      assert ab[..|ab| - 1] == a + init;
      assert ab[|ab| - 1] == last;
      calc {
        ImageBlocks(ab);
        ImageBlocks(a + init) + tail;
        { ImageBlocksAppend(a, init); }
        ImageBlocks(a) + ImageBlocks(init) + tail;
        ImageBlocks(a) + (ImageBlocks(init) + tail);
        ImageBlocks(a) + ImageBlocks(b);
      }
    }
  }

  /** The first recording, if any (`find`). */
  function AudioContent(blocks: seq<ContentBlock>): (r: Option<ContentBlock>)
    ensures r.None? <==> forall i :: 0 <= i < |blocks| ==> !blocks[i].Audio?
    ensures r.Some? ==> r.value.Audio?
    ensures r.Some? ==>
      exists i :: 0 <= i < |blocks| && blocks[i] == r.value && forall j :: 0 <= j < i ==> !blocks[j].Audio?
  {
    var i := FirstOfKind(blocks, AudioKind);
    if i < 0 then None else Some(blocks[i])
  }

  /** The image area: the first image's url and the `+k` badge, if shown. */
  datatype ImageArea = ImageArea(firstUrl: string, badge: Option<string>)

  /** What the card shows: the timestamp, the text line, the image area,
      the duration of the audio preview, and whether a delete swipe action
      is offered. */
  datatype CardView = CardView(
    timestamp: string,
    text: Option<string>,
    images: Option<ImageArea>,
    audioDuration: Option<string>,
    deleteAction: bool)

  /** The card for `note`; `hasOnDelete` says whether a delete handler was given. */
  function Render(note: Note, hasOnDelete: bool): (v: CardView)
    ensures v.timestamp == note.updatedAt
    ensures v.text.Some? <==> TextContent(note.content) != ""
    ensures v.text.Some? ==> v.text.value == TextContent(note.content)
    ensures v.images.Some? <==> |ImageBlocks(note.content)| >= 1
    ensures v.images.Some? ==> v.images.value.firstUrl == ImageBlocks(note.content)[0].url
    ensures v.images.Some? ==>
      (v.images.value.badge.Some? <==> |ImageBlocks(note.content)| > 1)
    ensures v.images.Some? && v.images.value.badge.Some? ==>
      v.images.value.badge.value == "+" + Decimal(|ImageBlocks(note.content)| - 1)
    ensures v.audioDuration.Some? <==> AudioContent(note.content).Some?
    ensures v.audioDuration.Some? ==> v.audioDuration.value == AudioContent(note.content).value.duration
    ensures v.deleteAction == hasOnDelete
  {
    var text := TextContent(note.content);
    var images := ImageBlocks(note.content);
    var audio := AudioContent(note.content);
    assert |images| > 0 ==> images[0] in images && images[0].Image?;
    CardView(
      note.updatedAt,
      if text != "" then Some(text) else None,
      if |images| > 0 then
        Some(ImageArea(images[0].url, if |images| > 1 then Some("+" + Decimal(|images| - 1)) else None))
      else None,
      if audio.Some? then Some(audio.value.duration) else None,
      hasOnDelete)
  }

  /** The badge counts the images the card does not show: with n images it
      reads `+(n-1)`, and reading its digits back gives n - 1. */
  lemma BadgeCountsHiddenImages(note: Note, hasOnDelete: bool)
    requires CountKind(note.content, ImageKind) > 1
    ensures Render(note, hasOnDelete).images.Some?
    ensures Render(note, hasOnDelete).images.value.badge.Some?
    ensures DecimalValue(Render(note, hasOnDelete).images.value.badge.value[1..])
            == CountKind(note.content, ImageKind) - 1
  {
    var n := CountKind(note.content, ImageKind);
    var badge := Render(note, hasOnDelete).images.value.badge.value;
    assert badge[1..] == Decimal(n - 1);
    DecimalRoundTrip(n - 1);
  }
}
