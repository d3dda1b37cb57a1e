/** The shared domain types of pkg/types/types.go that more than one component uses. */
module Events {

  datatype Option<+T> = None | Some(value: T)

  /** Instants and durations are whole nanoseconds; instant 0 is Go's zero `time.Time`. */
  type Time = int

  const SECOND: int := 1_000_000_000
  const MINUTE: int := 60 * SECOND

  const MAX_DURATION: int := 0x7FFF_FFFF_FFFF_FFFF
  const MIN_DURATION: int := -0x8000_0000_0000_0000

  /** `t.Sub(u)`: a duration is a signed 64-bit count, so the difference saturates. */
  function Sub(t: Time, u: Time): (d: int)
    ensures MIN_DURATION <= d <= MAX_DURATION
    ensures d <= t - u || d == MIN_DURATION
    ensures d >= t - u || d == MAX_DURATION
  {
    if t - u > MAX_DURATION then MAX_DURATION
    else if t - u < MIN_DURATION then MIN_DURATION
    else t - u
  }

  datatype Service = SSH | HTTP | FTP | SMB | MySQL | Redis

  datatype EventType =
    | Connect | Disconnect | LoginSuccess | LoginFailed
    | Command | CommandOutput | FileUpload | FileDownload
    | Request | Exploit | Scan

  /** What the seven substring tables of the command classifier answer for one command. */
  datatype Verdicts = Verdicts(
    discovery: bool, fileDiscovery: bool, networkDiscovery: bool,
    processDiscovery: bool, toolTransfer: bool, cronManipulation: bool, cryptoMining: bool)

  /** An event envelope. `command` is None when the service data holds no command text. */
  datatype Event = Event(
    id: string,
    sessionId: string,
    timestamp: Time,
    service: Service,
    kind: EventType,
    sourceIp: string,
    command: Option<Verdicts>)
}
