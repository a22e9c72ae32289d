/** The chat message record shared by the store, the prompt builders and the
    request payload. The store-assigned creation timestamp is not modelled. */
module Models {

  datatype Message = Message(id: int, role: string, content: string)

  const UserRole := "user"
  const AssistantRole := "assistant"
}
