/**
 * The remote-bus message as both binaries use it: the remote-bus client library
 * that defines it is not part of this model, and the binaries read only its
 * `channel` and `data` fields.
 */
module PubNub {
  import opened Workers

  datatype Message = Message(channel: string, data: string)

  /** Both local publishers publish a remote message under its own channel, with its
      data, unchanged. */
  function ToNats(m: Message): Publication
  {
    Publication(m.channel, m.data)
  }
}
