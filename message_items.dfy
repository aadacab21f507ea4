/** The message record the chat timeline reads from the message store. */
module MessageItems {
  import opened Basics

  /** One stored chat message, reduced to what the presentation rules read. */
  datatype MessageItem = MessageItem(
    uniqueId: string,
    account: string,            // our account's bare jid
    user: string,               // the chat partner's (or the room's) bare jid
    resource: string,           // sender resource; in a room, the occupant's nickname; "" is Resourcepart.EMPTY
    text: string,
    action: Option<string>,     // Some for a system action row (join, leave, ...)
    incoming: bool,
    forwarded: bool,
    receivedFromArchive: bool,  // replayed from the server-side message archive
    error: bool,
    sent: bool,
    delivered: bool,
    acknowledged: bool,
    uploadFileMessage: bool,    // MessageItem.isUploadFileMessage: a file upload is still pending
    inProgress: bool,
    timestamp: int              // milliseconds since the epoch
  )
}
