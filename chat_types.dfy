/** Values that the chat provider and the sign-in flow both pass around without looking inside. */
module ChatTypes {

  /** Who wrote a message. */
  datatype Role = User | Assistant

  /** One message of the transcript; its parts are kept as opaque text. */
  datatype UIMessage = UIMessage(id: string, role: Role, parts: seq<string>)

  /** One file of a serialized project, `{ type: "file", content }`. */
  datatype FileNode = FileNode(content: string)

  /** A serialized virtual file system: path to file. */
  type Snapshot = map<string, FileNode>
}
