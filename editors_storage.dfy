/**
 * The keys query editors are stored under (src/app/storage/editors_storage.rs):
 * a key is the UTF-8 bytes of "<server id>:<database>", and reading a key
 * back splits its text at ':'. The key-value store itself is not part of
 * this model.
 */
module EditorsStorage {
  import opened Wrappers
  import Utf8
  import Uuids
  import Strings

  /** `StoredEditorId`: the editor's server and database, and the bytes of its key. */
  datatype StoredEditorId = StoredEditorId(serverId: Uuids.Uuid, database: string, encoded: seq<Utf8.byte>)

  /** What reading a raw key gives: the id, the store's error, or a panic of an `unwrap`. */
  datatype KeyOutcome = Key(id: StoredEditorId) | Error(message: string) | Panic

  const NotUtf8Message: string := "Failed to parse stored editor id"

  /** The text a key encodes. */
  function KeyText(serverId: Uuids.Uuid, database: string): string
  {
    Uuids.ToString(serverId) + ":" + database
  }

  /** `Storage::new_editor_id`: the id with the bytes of its key text. */
  function NewEditorId(serverId: Uuids.Uuid, database: string): (id: StoredEditorId)
    ensures id.serverId == serverId && id.database == database
    ensures Utf8.Decode(id.encoded) == Some(KeyText(serverId, database))
  {
    Utf8.DecodeEncode(KeyText(serverId, database));
    StoredEditorId(serverId, database, Utf8.Encode(KeyText(serverId, database)))
  }

  /**
   * `from_raw_key` as written: bytes that are not UTF-8 are an error; a text
   * without ':' or whose first piece is not a UUID panics; otherwise the
   * database is the second ':'-separated piece, and the bytes are kept.
   */
  function FromRawKey(r: seq<Utf8.byte>): (o: KeyOutcome)
    ensures Utf8.Decode(r).None? <==> o == Error(NotUtf8Message)
    ensures Utf8.Decode(r).Some? && ':' !in Utf8.Decode(r).value ==> o.Panic?
    ensures o.Key? ==> o.id.encoded == r && Uuids.Parse(Strings.Split(Utf8.Decode(r).value, ':')[0]) == Some(o.id.serverId)
    ensures o.Key? ==> o.id.database == Strings.Split(Utf8.Decode(r).value, ':')[1]
    ensures Utf8.Decode(r).Some? ==>
      (o.Key? <==> ':' in Utf8.Decode(r).value && Uuids.Parse(Strings.Split(Utf8.Decode(r).value, ':')[0]).Some?)
    ensures Utf8.Decode(r).Some? && !o.Key? ==> o.Panic?
  {
    match Utf8.Decode(r)
    case None => Error(NotUtf8Message)
    case Some(text) =>
      Strings.SplitFirstPiece(text, ':');
      var parts := Strings.Split(text, ':');
      if |parts| < 2 then Panic
      else
        match Uuids.Parse(parts[0])
        case None => Panic
        case Some(u) => Key(StoredEditorId(u, parts[1], r))
  }

  /** `to_raw_key`: the bytes the id was made from or read from. */
  function ToRawKey(id: StoredEditorId): (r: seq<Utf8.byte>)
    ensures id == NewEditorId(id.serverId, id.database) ==> Utf8.Decode(r) == Some(KeyText(id.serverId, id.database))
    ensures id == NewEditorId(id.serverId, id.database) && ':' !in id.database ==> FromRawKey(r) == Key(id)
  {
    if ':' !in id.database then
      NewEditorIdRoundTrip(id.serverId, id.database);
      id.encoded
    else id.encoded
  }

  /** A key read back writes out as the same bytes. */
  lemma RawKeyRoundTrip(r: seq<Utf8.byte>)
    requires FromRawKey(r).Key?
    ensures ToRawKey(FromRawKey(r).id) == r
  {
  }

  /** Splitting a key text at ':' gives the server id text and then the database's own pieces. */
  lemma KeyTextPieces(serverId: Uuids.Uuid, database: string)
    ensures Strings.Split(KeyText(serverId, database), ':') == [Uuids.ToString(serverId)] + Strings.Split(database, ':')
  {
    Uuids.ToStringHasNoColon(serverId);
    Strings.SplitAfterPrefix(Uuids.ToString(serverId), ':', database);
    assert KeyText(serverId, database) == Uuids.ToString(serverId) + [':'] + database;
  }

  /** An editor whose database has no ':' reads back as the same id. */
  lemma NewEditorIdRoundTrip(serverId: Uuids.Uuid, database: string)
    requires ':' !in database
    ensures FromRawKey(NewEditorId(serverId, database).encoded) == Key(NewEditorId(serverId, database))
  {
    KeyTextPieces(serverId, database);
    Uuids.ParseToString(serverId);
  }

  /** As written, a database with ':' reads back as only its text before the first ':'. */
  lemma DatabaseWithColonTruncated(serverId: Uuids.Uuid, database: string)
    requires ':' in database
    ensures var o := FromRawKey(NewEditorId(serverId, database).encoded);
      && o == Key(StoredEditorId(serverId, database[..Strings.FirstIndexOf(database, ':')], NewEditorId(serverId, database).encoded))
      && o.id.database != database
  {
    KeyTextPieces(serverId, database);
    Uuids.ParseToString(serverId);
    Strings.SplitFirstPiece(database, ':');
  }

  /** `from_raw_key` reading the database as everything after the first ':', as `splitn(2, ':')` does. */
  function FromRawKeyWhole(r: seq<Utf8.byte>): (o: KeyOutcome)
    ensures Utf8.Decode(r).None? <==> o == Error(NotUtf8Message)
    ensures o.Key? ==> o.id.encoded == r
  {
    match Utf8.Decode(r)
    case None => Error(NotUtf8Message)
    case Some(text) =>
      var (server, database) := Strings.SplitOnce(text, ':');
      if database.None? then Panic
      else
        match Uuids.Parse(server)
        case None => Panic
        case Some(u) => Key(StoredEditorId(u, database.value, r))
  }

  /** With the database read whole, every editor id reads back as itself, whatever its database. */
  lemma NewEditorIdRoundTripWhole(serverId: Uuids.Uuid, database: string)
    ensures FromRawKeyWhole(NewEditorId(serverId, database).encoded) == Key(NewEditorId(serverId, database))
  {
    Uuids.ToStringHasNoColon(serverId);
    Uuids.ParseToString(serverId);
    Strings.SplitOnceOfJoined(Uuids.ToString(serverId), ':', database);
    assert KeyText(serverId, database) == Uuids.ToString(serverId) + [':'] + database;
  }
}
