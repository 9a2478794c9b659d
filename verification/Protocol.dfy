/** The messages of the wire protocol, as far as the relay and the daemon act on them. */
module Protocol {
  import opened Basics

  type Id = string
  type Name = string

  /** What a command message carries besides its id. */
  datatype Job = Job(cmd: string, timeout: int, stream: bool, stdin: string)

  /** What a file_transfer message carries besides its id, target and token. */
  datatype Announce = Announce(
    mode: string,
    src: string,
    dst: string,
    content: string,
    chunked: bool,
    totalChunks: int,
    totalSize: int,
    chunkSize: int,
    streams: int)

  /** The outcome of a command or a transfer; `text` stands for output, exit code and error. */
  datatype Body = Body(ok: bool, text: string)

  /**
   Messages that the relay writes. A legacy chunk carries its base64 text decoded, None if
   it cannot be decoded. A TunnelMsg is a relayed tunnel_opened or tunnel_data.
   */
  datatype Msg =
    | Error(text: string)
    | Registered(name: Name)
    | Command(id: Id, job: Job)
    | FileInit(id: Id, announce: Announce)
    | ChunkHeader(id: Id, index: int, final: bool, compressed: bool)
    | LegacyChunk(id: Id, index: int, data: Option<Bytes>, final: bool)
    | Result(id: Id, body: Body)
    | StreamChunk(id: Id, text: string)
    | StreamEnd(id: Id, body: Body)
    | MultiResult(id: Id, results: map<Name, Body>, error: string)
    | PairDone(code: string, token: string, hostname: string)
    | PairConfirmed(code: string)
    | TunnelOpen(tunnelId: Id, remoteAddr: string)
    | TunnelOpened(tunnelId: Id, error: string)
    | TunnelMsg(tunnelId: Id, text: string)
    | TunnelClose(tunnelId: Id)
    | Disconnect
    | DisconnectConfirmed(target: Name)
}
