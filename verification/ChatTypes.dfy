// The part of the WebSocket protocol that carries room membership and chat.

module ChatTypes {
  datatype Reason =
    | NotInRoom
    | NotAMember
    | UnsupportedType
    | EmptyContent
    | ContentTooLarge
    | PersistenceFailed
    | SenderLookupFailed

  datatype ClientMsg =
    | RoomJoin(room: nat)
    | RoomLeave(room: nat)
    | ChatSend(room: nat, kind: string, content: string, cmid: nat)

  datatype ServerMsg =
    | Connected
    | RoomJoined(room: nat)
    | JoinError(room: nat)
    | ChatError(room: nat, reason: Reason, cmid: nat)
    | ChatMessage(room: nat, sender: nat, content: string, cmid: nat)
    | OtherEvent

  // One connection: a device and the generation of its WebSocket.
  type ConnKey = (nat, nat)
}
