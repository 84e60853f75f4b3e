/**
 * The bot's database helpers (tg_bot/database/utils/crud.py): the cache of
 * files already uploaded to the chat service, the actor cache and the raw
 * SQL entry point. Tables are sequences of rows in insertion order; a lookup
 * without ORDER BY is modelled as returning the earliest matching row, the
 * row SQLite's plain scan meets first.
 */
module Crud {
  import opened Wrappers
  import opened Strings
  import opened PyValues

  // ---------------------------------------------------------------------------
  // Uploaded files

  const ImageSuffixes: seq<string> := [".png", ".jpg", ".jpeg", ".webp", ".tif"]
  const VideoSuffixes: seq<string> := [".avi", ".mpg", ".mpeg", ".mp4", ".mkv"]
  const DocumentSuffixes: seq<string> := [".doc", ".docx", ".xls", ".xlsx", ".rar", ".zip", ".7z", ".ppt"]

  /** The file type save_file_id records, from the URL's suffix, ignoring letter case. */
  function FileType(url: string): (t: string)
    ensures t in {"image", "video", "document", "unknown"}
    ensures t == "image" <==> EndsWithAny(LowerAscii(url), ImageSuffixes)
    ensures t == "video" <==> !EndsWithAny(LowerAscii(url), ImageSuffixes) && EndsWithAny(LowerAscii(url), VideoSuffixes)
    ensures t == "document" <==>
              !EndsWithAny(LowerAscii(url), ImageSuffixes) && !EndsWithAny(LowerAscii(url), VideoSuffixes) &&
              EndsWithAny(LowerAscii(url), DocumentSuffixes)
  {
    var lower := LowerAscii(url);
    if EndsWithAny(lower, ImageSuffixes) then "image"
    else if EndsWithAny(lower, VideoSuffixes) then "video"
    else if EndsWithAny(lower, DocumentSuffixes) then "document"
    else "unknown"
  }

  lemma LowerAsciiIdempotent(s: string)
    ensures LowerAscii(LowerAscii(s)) == LowerAscii(s)
  {
  }

  /** Letter case in the URL does not change the file type. */
  lemma FileTypeIgnoresCase(url: string)
    ensures FileType(LowerAscii(url)) == FileType(url)
  {
    LowerAsciiIdempotent(url);
  }

  /** An upper-case picture suffix is still a picture. */
  lemma UpperCaseJpegIsImage()
    ensures FileType("https://st.kp.yandex.net/poster.JPEG") == "image"
  {
    var url := "https://st.kp.yandex.net/poster.JPEG";
    var lower := LowerAscii(url);
    assert lower[|lower| - 5..] == ".jpeg";
    assert EndsWith(lower, ImageSuffixes[2]);
  }

  /** A row of files_for_bot. */
  datatype FileRow = FileRow(fileType: string, fileName: string, fileCode: string)

  /** The code of the earliest row for a URL. */
  function FirstCode(rows: seq<FileRow>, url: string): (r: Option<string>)
    ensures r.Some? ==> exists k :: 0 <= k < |rows| && rows[k].fileName == url && rows[k].fileCode == r.value
    ensures r.None? <==> forall k :: 0 <= k < |rows| ==> rows[k].fileName != url
    decreases |rows|
  {
    if rows == [] then None
    else if rows[0].fileName == url then Some(rows[0].fileCode)
    else
      var r := FirstCode(rows[1..], url);
      assert forall k :: 1 <= k < |rows| ==> rows[k] == rows[1..][k - 1];
      r
  }

  lemma {:induction false} FirstCodeAppend(rows: seq<FileRow>, row: FileRow, url: string)
    ensures FirstCode(rows + [row], url) ==
      if FirstCode(rows, url).Some? then FirstCode(rows, url)
      else if row.fileName == url then Some(row.fileCode)
      else None
    decreases |rows|
  {
    if rows == [] {
      assert [row][1..] == [];
    } else {
      assert (rows + [row])[1..] == rows[1..] + [row];
      FirstCodeAppend(rows[1..], row, url);
    }
  }

  class FileStore {
    var rows: seq<FileRow>

    constructor ()
      ensures rows == []
    {
      rows := [];
    }

    /** get_file_id: the stored code for a URL, or "" for an empty URL or an unknown file. */
    function GetFileId(url: string): (code: string)
      reads this
      ensures url == "" ==> code == ""
      ensures url != "" && FirstCode(rows, url).Some? ==> code == FirstCode(rows, url).value
      ensures FirstCode(rows, url).None? ==> code == ""
    {
      if url == "" then ""
      else
        var found := FirstCode(rows, url);
        if found.Some? then found.value else ""
    }

    /** save_file_id: nothing for an empty URL or code, otherwise one more row (no uniqueness check). */
    method SaveFileId(url: string, code: string)
      modifies this
      ensures url == "" || code == "" ==> rows == old(rows)
      ensures url != "" && code != "" ==> rows == old(rows) + [FileRow(FileType(url), url, code)]
    {
      if url == "" || code == "" {
        return;
      }
      var fileType := FileType(url);
      rows := rows + [FileRow(fileType, url, code)];
    }
  }

  /**
   * Saving then reading gives the code back for a new URL; for a URL already
   * cached the earlier code wins, since the duplicate row is never read.
   */
  lemma SaveThenGet(before: seq<FileRow>, url: string, code: string)
    requires url != "" && code != ""
    ensures FirstCode(before + [FileRow(FileType(url), url, code)], url) ==
      if FirstCode(before, url).Some? then FirstCode(before, url) else Some(code)
  {
    FirstCodeAppend(before, FileRow(FileType(url), url, code), url);
  }

  // ---------------------------------------------------------------------------
  // Actor cache

  /** A row of ActorFilms. Keys are compared as the values the caller passed. */
  datatype ActorRow = ActorRow(idHistory: PyValue, dataKey: PyValue, dataJson: string, actorName: PyValue)

  datatype DbError =
    | IntegrityError  // a NULL written to a NOT NULL column
    | TypeError       // `len(None)` on an empty fetchone result

  /** `actor_info.get('id', actor_info.get('actor_id', ''))` */
  function ActorKey(info: map<string, PyValue>): PyValue {
    Get(info, "id", Get(info, "actor_id", PStr("")))
  }

  /** The name stored: "name" when truthy, otherwise "enName", defaulting to "None!". */
  function ActorName(info: map<string, PyValue>): (name: PyValue)
    ensures Truthy(Get(info, "name", PStr(""))) ==> name == info["name"]
    ensures !Truthy(Get(info, "name", PStr(""))) && "enName" in info ==> name == info["enName"]
    ensures !Truthy(Get(info, "name", PStr(""))) && "enName" !in info ==> name == PStr("None!")
  {
    var name := Get(info, "name", PStr(""));
    if Truthy(name) then name else Get(info, "enName", PStr("None!"))
  }

  /**
   * The history id as stored: an int becomes its decimal text, and so does a
   * bool, which Python counts as an int (`str(True)` is "True").
   */
  function HistoryText(historyId: PyValue): (r: PyValue)
    ensures historyId.PInt? ==> r == PStr(IntToString(historyId.i))
    ensures historyId.PBool? ==> r == PStr(if historyId.b then "True" else "False")
    ensures !historyId.PInt? && !historyId.PBool? ==> r == historyId
    ensures r.PStr? <==> historyId.PInt? || historyId.PBool? || historyId.PStr?
  {
    match historyId
    case PInt(i) => PStr(IntToString(i))
    case PBool(b) => PStr(if b then "True" else "False")
    case _ => historyId
  }

  /** get_actor_by_id: the earliest row with the key. */
  function FindActor(rows: seq<ActorRow>, key: PyValue): (r: Option<ActorRow>)
    ensures r.Some? ==> r.value in rows && r.value.dataKey == key
    ensures r.None? <==> forall k :: 0 <= k < |rows| ==> rows[k].dataKey != key
    decreases |rows|
  {
    if rows == [] then None
    else if rows[0].dataKey == key then Some(rows[0])
    else
      var r := FindActor(rows[1..], key);
      assert forall k :: 1 <= k < |rows| ==> rows[k] == rows[1..][k - 1];
      r
  }

  class ActorStore {
    var rows: seq<ActorRow>

    constructor ()
      ensures rows == []
    {
      rows := [];
    }

    /**
     * save_actor_if_absent: nothing when the key is cached; otherwise one
     * row, unless the name to store is None, which the NOT NULL column
     * refuses (the transaction is rolled back and the error propagates).
     * `dumps` is the JSON serializer.
     */
    method SaveActorIfAbsent(info: map<string, PyValue>, historyId: PyValue, dumps: map<string, PyValue> -> string)
      returns (r: Result<(), DbError>)
      modifies this
      ensures FindActor(old(rows), ActorKey(info)).Some? ==> r.Ok? && rows == old(rows)
      ensures FindActor(old(rows), ActorKey(info)).None? && ActorName(info) == PNone ==>
        r == Err(IntegrityError) && rows == old(rows)
      ensures FindActor(old(rows), ActorKey(info)).None? && ActorName(info) != PNone ==>
        r.Ok? && rows == old(rows) + [ActorRow(HistoryText(historyId), ActorKey(info), dumps(info), ActorName(info))]
    {
      var history := HistoryText(historyId);
      var actorId := ActorKey(info);
      var checkItem := FindActor(rows, actorId);
      if checkItem.Some? {
        return Ok(());
      }
      var actorJson := dumps(info);
      var actorName := Get(info, "name", PStr(""));
      if !Truthy(actorName) {
        actorName := Get(info, "enName", PStr("None!"));
      }
      if actorName == PNone {
        return Err(IntegrityError);
      }
      rows := rows + [ActorRow(history, actorId, actorJson, actorName)];
      r := Ok(());
    }
  }

  /** Once saved, an actor is found under its key, so saving again changes nothing. */
  lemma SavedActorIsFound(rows: seq<ActorRow>, row: ActorRow)
    ensures FindActor(rows + [row], row.dataKey).Some?
  {
    assert (rows + [row])[|rows|] == row;
  }

  // ---------------------------------------------------------------------------
  // execute_sql

  /** The two shapes execute_sql returns: all rows, or the text of one value. */
  datatype SqlResult = Rows(rows: seq<seq<PyValue>>) | Text(text: string)

  /**
   * execute_sql over the rows the query yields. With is_one the first row is
   * taken; a single-column row becomes `str` of its value, any other row
   * `str` of the tuple; no row at all fails on `len(None)` before that.
   * `str` and `strTuple` are Python's `str` on a value and on a tuple.
   */
  function ExecuteSql(rows: seq<seq<PyValue>>, isOne: bool, str: PyValue -> string, strTuple: seq<PyValue> -> string)
    : (r: Result<SqlResult, DbError>)
    ensures !isOne ==> r == Ok(Rows(rows))
    ensures isOne && rows == [] ==> r == Err(TypeError)
    ensures isOne && rows != [] && |rows[0]| == 1 ==> r == Ok(Text(str(rows[0][0])))
    ensures isOne && rows != [] && |rows[0]| != 1 ==> r == Ok(Text(strTuple(rows[0])))
  {
    if !isOne then Ok(Rows(rows))
    else if rows == [] then Err(TypeError)
    else if |rows[0]| == 1 then Ok(Text(str(rows[0][0])))
    else Ok(Text(strTuple(rows[0])))
  }
}
