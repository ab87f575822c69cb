/**
 * The identity of a query editor tab and what is kept about it
 * (src/app/model.rs): a tab is one database of one server.
 */
module EditorIds {
  import Uuids

  datatype EditorId = EditorId(serverId: Uuids.Uuid, database: string)

  /** The tab's label: the name of its server. */
  datatype EditorMetadata = EditorMetadata(name: string)
}
