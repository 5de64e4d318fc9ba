/** The record types shared by the chat page and its components (frontend/src/types/chat.ts). */
module ChatTypes {
  import opened Wrappers

  /** Who wrote a message: the person at the keyboard or the assistant. */
  datatype Role = User | Ai

  /** One transcript entry; `sources` is absent unless the backend attached citations. */
  datatype Message = Message(
    id: int,
    role: Role,
    content: string,
    timestamp: string,
    sources: Option<seq<string>>)

  /** Client-visible lifecycle of an uploaded file. */
  datatype DocStatus = Indexed | Processing | Error

  datatype DocumentItem = DocumentItem(id: int, name: string, status: DocStatus)

  /** A past conversation as listed in the sidebar. */
  datatype ChatSession = ChatSession(id: int, createdAt: string, title: string)
}
