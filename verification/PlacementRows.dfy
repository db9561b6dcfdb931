/**
 Placement rows: one for each copy of a blob that exists or is wanted.
 A handle stands for the coordinates (storage path, message id, location id and
 sender id) under which a message-style provider stores one copy.
 */
module PlacementRows {
  import opened Basics

  type BlobId = nat
  type RowId = nat
  type Handle = nat

  datatype Role = Primary | Replica
  datatype Provider = Discord | Telegram
  datatype Status = Pending | Active | Missing | Modified | Deleting

  datatype Row = Row(
    id: RowId,
    blob: BlobId,
    provider: Provider,
    role: Role,
    status: Status,
    handle: Option<Handle>,
    attempts: nat)
  {
    /** The states the replication worker picks up, and may turn ACTIVE. */
    predicate Queued() { status == Pending || status == Missing }

    /** The states that serve reads. */
    predicate Readable() { status == Active || status == Modified }
  }
}
