/**
 * `ContentStorage`, the backend's two-slot store for large text: the raw content the
 * frontend hands over and the last successful formatting result, with the commands that
 * fill, inspect, page through and clear them, and `format_text`, which reads the raw
 * slot when it is given no text and writes the formatted slot.
 */
module Storage {
  import opened Wrappers
  import opened Chunking
  import opened Foreign
  import opened Transforms

  const InvalidContentType := "Invalid content type"
  const NoContentStored := "No content stored"

  /** Files above 100 MiB are loaded into the store instead of being handed to the
      frontend. */
  const StreamingThreshold: nat := 100 * 1024 * 1024
  const ReadFailed := "Failed to read file: "
  // The messages for a file read in streaming mode and for one left to the frontend.
  const StreamedMessage := "Large file loaded successfully" + " using streaming mode"
  const ManageableMessage := "File size is manageable," + " frontend can handle normally"

  /** The JSON object `read_large_file_streaming` answers with. */
  datatype FileLoad = FileLoad(success: bool, fileSize: nat, useStreaming: bool, message: string)

  /** The JSON object `get_content_info` answers with. */
  datatype ContentInfo = ContentInfo(hasRaw: bool, hasFormatted: bool, rawLength: nat, formattedLength: nat)

  class ContentStorage {
    var rawContent: Option<string>
    var formattedContent: Option<string>

    /** `ContentStorage::default()`: both slots empty. */
    constructor ()
      ensures rawContent == None && formattedContent == None
    {
      rawContent, formattedContent := None, None;
    }

    /** `store_raw_content`: the new raw content replaces the old, and the formatted
        content, which belonged to the old, is dropped. */
    method StoreRawContent(content: string)
      modifies this
      ensures rawContent == Some(content) && formattedContent == None
    {
      rawContent := Some(content);
      formattedContent := None;
    }

    /** `clear_content`: both slots emptied, whatever they held. */
    method ClearContent()
      modifies this
      ensures rawContent == None && formattedContent == None
    {
      rawContent := None;
      formattedContent := None;
    }

    /** `read_large_file_streaming` for an opened file of `fileSize` bytes, where `read`
        is what reading the whole file gives. Only a file above the threshold is read; it
        then replaces the raw content exactly as `store_raw_content` does. */
    method ReadLargeFileStreaming(fileSize: nat, read: Result<string>) returns (r: Result<FileLoad>)
      modifies this
      ensures r.Err? <==> fileSize > StreamingThreshold && read.Err?
      ensures r.Err? ==> r.error == ReadFailed + read.error
      ensures r.Ok? ==> r.value.success && r.value.fileSize == fileSize
      ensures r.Ok? ==> (r.value.useStreaming <==> fileSize > StreamingThreshold)
      ensures r.Ok? ==> r.value.message == if r.value.useStreaming then StreamedMessage else ManageableMessage
      ensures if fileSize > StreamingThreshold && read.Ok?
        then rawContent == Some(read.value) && formattedContent == None
        else rawContent == old(rawContent) && formattedContent == old(formattedContent)
    {
      if fileSize > StreamingThreshold {
        match read {
          case Err(e) => return Err(ReadFailed + e);
          case Ok(content) =>
            StoreRawContent(content);
            return Ok(FileLoad(true, fileSize, true, StreamedMessage));
        }
      }
      return Ok(FileLoad(true, fileSize, false, ManageableMessage));
    }

    /** `get_content_info`: which slots are filled and how long their contents are (0
        for an empty slot). */
    function Info(): (info: ContentInfo)
      reads this
      ensures info.hasRaw <==> rawContent.Some?
      ensures info.hasFormatted <==> formattedContent.Some?
      ensures info.rawLength == if rawContent.Some? then |rawContent.value| else 0
      ensures info.formattedLength == if formattedContent.Some? then |formattedContent.value| else 0
    {
      var rawLength := match rawContent case Some(s) => |s| case None => 0;
      var formattedLength := match formattedContent case Some(s) => |s| case None => 0;
      ContentInfo(rawContent.Some?, formattedContent.Some?, rawLength, formattedLength)
    }

    /** The slot `content_type` names: `"raw"` or `"formatted"`. */
    function Slot(contentType: string): Option<string>
      reads this
      requires contentType == "raw" || contentType == "formatted"
    {
      if contentType == "raw" then rawContent else formattedContent
    }

    /** `get_content_chunk`: the window at `start` of the slot `content_type` names.
        Any other name is refused before the slot is looked at, and an empty slot has no
        windows. */
    function GetContentChunk(contentType: string, start: nat, chunkSize: nat): (r: Result<ChunkResponse>)
      reads this
      ensures r == Err(InvalidContentType) <==> contentType != "raw" && contentType != "formatted"
      ensures r == Err(NoContentStored) <==>
        (contentType == "raw" || contentType == "formatted") && Slot(contentType).None?
      ensures r.Err? ==> r == Err(InvalidContentType) || r == Err(NoContentStored)
      ensures r.Ok? ==>
        Slot(contentType).Some? && r.value == ContentChunk(Slot(contentType).value, start, chunkSize)
    {
      var content: Result<Option<string>> :=
        if contentType == "raw" then Ok(rawContent)
        else if contentType == "formatted" then Ok(formattedContent)
        else Err(InvalidContentType);
      match content
      case Err(e) => Err(e)
      case Ok(None) => Err(NoContentStored)
      case Ok(Some(s)) => Ok(ContentChunk(s, start, chunkSize))
    }

    /** `format_text`: the given text, or the raw slot when the text is empty (nothing
        when that slot is empty too), run through the named transformation. A success is
        kept in the formatted slot, except from `encode` and `decode`; the raw slot is
        never touched. */
    method FormatText(text: string, formatType: string, lib: Library) returns (r: Result<string>)
      modifies this
      ensures r == TransformSpec(formatType, if text == [] then old(rawContent).GetOr("") else text, lib)
      ensures rawContent == old(rawContent)
      ensures formattedContent ==
        if r.Ok? && formatType != "encode" && formatType != "decode" then Some(r.value)
        else old(formattedContent)
    {
      var contentToFormat := if text == [] then rawContent.GetOr("") else text;
      r := Transform(formatType, contentToFormat, lib);
      if r.Ok? && formatType != "encode" && formatType != "decode" {
        formattedContent := Some(r.value);
      }
    }
  }

  /** Paging through a filled slot from offset 0, following `next_start` until
      `has_more` is false, gives back exactly what the slot holds. */
  lemma {:induction false} PagedReadRoundTrip(storage: ContentStorage, contentType: string, chunkSize: nat)
    requires contentType == "raw" || contentType == "formatted"
    requires storage.Slot(contentType).Some? && chunkSize > 0
    ensures storage.GetContentChunk(contentType, 0, chunkSize).Ok?
    ensures Concat(ChunksFrom(storage.Slot(contentType).value, 0, chunkSize)) == storage.Slot(contentType).value
  {
    ChunkedReadRoundTrip(storage.Slot(contentType).value, chunkSize);
  }

  /** The lengths `get_content_info` reports are the `total_length` every window of that
      slot carries. */
  lemma InfoAgreesWithChunks(storage: ContentStorage, start: nat, chunkSize: nat)
    ensures storage.GetContentChunk("raw", start, chunkSize).Ok? ==>
      storage.GetContentChunk("raw", start, chunkSize).value.totalLength == storage.Info().rawLength
    ensures storage.GetContentChunk("formatted", start, chunkSize).Ok? ==>
      storage.GetContentChunk("formatted", start, chunkSize).value.totalLength == storage.Info().formattedLength
    ensures storage.GetContentChunk("raw", start, chunkSize).Ok? <==> storage.Info().hasRaw
    ensures storage.GetContentChunk("formatted", start, chunkSize).Ok? <==> storage.Info().hasFormatted
  {
  }
}
