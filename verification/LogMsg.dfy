/** The messages that flow through the pipeline. A JSON patch is carried as its serialised text. */
module LogMessages {

  datatype LogMsg =
    | Stdout(text: string)
    | Stderr(text: string)
    | JsonPatch(json: string)
    | SessionId(id: string)
    | Finished

  const OVERHEAD := 8

  /** What a message carries. */
  function Payload(m: LogMsg): string {
    match m
    case Stdout(s) => s
    case Stderr(s) => s
    case JsonPatch(j) => j
    case SessionId(s) => s
    case Finished => ""
  }

  /** Size charged against the history budget: event name, payload, fixed overhead. */
  function ApproxBytes(m: LogMsg): (n: nat)
    ensures |Payload(m)| + 14 <= n <= |Payload(m)| + 18
  {
    match m
    case Stdout(s) => |"stdout"| + |s| + OVERHEAD
    case Stderr(s) => |"stderr"| + |s| + OVERHEAD
    case JsonPatch(j) => |"json_patch"| + |j| + OVERHEAD
    case SessionId(s) => |"session_id"| + |s| + OVERHEAD
    case Finished => |"finished"| + OVERHEAD
  }
}
