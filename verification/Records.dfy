/** The rows the connector, approval-gate and bridge services keep in the repository.
  *
  * The repository is a set of tables keyed by id; uuid4 ids are natural numbers
  * drawn from one counter, which gives exactly the freshness the source relies on.
  */
module Records {
  import opened Options

  type Id = int
  type Payload = map<string, string>

  // --- the deployment: what a running process never changes -----------------

  datatype Access = Read | Write
  datatype Action = Action(access: Access, direct: bool)
  datatype Connector = Connector(needsAuth: bool, enabled: bool, actions: map<string, Action>)
  datatype CloudApp = CloudApp(readable: set<string>, writable: set<string>)
  datatype Deployment = Deployment(
    connectors: map<string, Connector>,
    cloudApps: map<string, CloudApp>,
    owners: map<Id, string>)          // work unit -> the contributor it is assigned to

  // --- rows -------------------------------------------------------------------

  datatype Policy = Policy(requireApproval: bool, blockTerminal: bool, blocked: seq<string>)

  /** A policy change names only the fields it sets. */
  datatype Patch = Patch(requireApproval: Option<bool>, blockTerminal: Option<bool>, blocked: Option<seq<string>>)

  /** A connected tool. `spec` says whether its config carries a custom spec. */
  datatype Tool = Tool(desk: Id, owner: string, key: string, bridge: Option<Id>, spec: bool, signedIn: bool)

  datatype GateStatus = GatePending | GateApproved | GateRejected
  datatype Gate = Gate(status: GateStatus, approver: Option<string>)

  /** Why a write was rejected or failed, one name per message the source writes. */
  datatype Fault =
    | NoFault | AutonomyHalted | NoLongerAvailable | NoWritePath
    | NoSuchBridge | BridgeOffline | NotOnAllowlist | NoAnswerInTime
    | RejectedByApprover | BridgeJobFailed
    | Message(text: string)

  datatype Status = Pending | Executed | Rejected | Failed
  datatype Request = Request(
    id: Id, desk: Id, maker: string, tool: Id, key: string, action: string, params: Payload,
    status: Status, approver: Option<string>, result: Option<Payload>, reason: Fault)

  /** The pairing secret is stored hashed; SHA-256 is an injective symbol. */
  datatype Digest = Sha256(secret: int)
  datatype Bridge = Bridge(
    desk: Id, hash: Digest, allowed: set<string>, lastSeen: Option<int>,
    code: string, pairSecret: Option<int>, expires: Option<int>)

  datatype JobStatus = JobPending | JobRunning | JobDone | JobFailed
  datatype Job = Job(bridge: Id, key: string, action: string, params: Payload,
                     status: JobStatus, result: Payload, error: string)

  // --- the append-only audit log ------------------------------------------------

  datatype Kind =
    | WriteRequested | WriteExecuted | WriteFailed | WriteRejected
    | Invoked(direct: bool) | TerminalRun | ToolConnected | ToolDisconnected
  datatype Event = Event(kind: Kind, actor: string, desk: Id, request: Option<Id>)

  // --- external calls -----------------------------------------------------------

  /** Why an external call was started. */
  datatype Origin =
    | Settlement(request: Id)
    | DirectWrite(who: string)
    | ReadUse(who: string)
    | Terminal(who: string)
    | Diagnostic(who: string)          // host listing and spec preview
    | SignIn(who: string)              // exchanging an authorization code for a token

  datatype Channel = Local | Cloud | ViaBridge(job: Id)

  /** One external call, with what was true when it started. */
  datatype Call = Call(
    origin: Origin, key: string, action: string, params: Payload, channel: Channel,
    halted: bool, forced: bool, approver: Option<string>)

  datatype Outcome = Returned(result: Payload) | Raised(why: Fault)
  datatype Answer = Answer(result: Payload, error: string)   // an empty error means success
  datatype Submission = Submission(bridge: Id, job: Id, answer: Answer)

  /** What the service does with an external call once it returns. */
  datatype Await =
    | AwaitSettle(row: Request)
    | AwaitUse(who: string, desk: Id, direct: bool)
    | AwaitTerminal(who: string, desk: Id)
    | AwaitToken(tool: Id, asked: Tool)
    | AwaitNothing

  /** A desk poll in progress: the rows it read and has not reached yet. */
  datatype Poll = Poll(rows: seq<Request>, waiting: Option<nat>)
}
