/** The connection to the GTC CORBA system in hcam_widgets/gtc/corba.py: a
    connection delegates each operation to its current state, raw,
    initialised or ready, and each operation is legal in exactly one state.
    The ORB, the naming service and the remote objects are foreign: what
    each call into them produces is a parameter, and the references they
    hand back are opaque numbers. Setting the ORB's environment variables is
    not modelled. */
module Corba {
  import opened Wrappers

  datatype State = Raw | Initialised | Ready

  /** A connection: its state, and the ORB and naming context it holds once
      they are obtained. */
  datatype Connection = Connection(state: State, orb: Option<nat>, rootContext: Option<nat>)

  /** What `CORBA.ORB_init` does: hands back an ORB or raises. */
  datatype OrbOutcome = OrbStarted(orb: nat) | OrbRaises

  /** What resolving `'NameService'` and narrowing it to a naming context
      does: raises `CORBA.TRANSIENT`, raises something else, or hands back a
      context that may be `None`. */
  datatype NameOutcome = NameTransient | NameRaises | NameResolved(context: Option<nat>)

  /** What resolving a binding and narrowing it to the requested class does,
      with the same three possibilities. */
  datatype ObjectOutcome = ObjectTransient | ObjectRaises | ObjectResolved(narrowed: Option<nat>)

  /** A connection after an operation, with the operation's value or the
      exception it raised. */
  datatype Step<T> = Step(conn: Connection, result: Result<T, Exception>)

  /** How far along a state is. */
  function Rank(s: State): nat {
    match s
    case Raw => 0
    case Initialised => 1
    case Ready => 2
  }

  /** The references a connection holds are those its state has obtained. */
  predicate Consistent(c: Connection) {
    match c.state
    case Raw => c.orb.None? && c.rootContext.None?
    case Initialised => c.orb.Some? && c.rootContext.None?
    case Ready => c.orb.Some? && c.rootContext.Some?
  }

  /** `CORBAConnection()`: a new connection starts raw. */
  function NewConnection(): (c: Connection)
    ensures c.state == Raw && Consistent(c)
  {
    Connection(Raw, None, None)
  }

  /** `init_orb`: legal only in the raw state, where a started ORB moves the
      connection to initialised; elsewhere it raises 'ORB already
      initialised'. */
  function InitOrb(c: Connection, outcome: OrbOutcome): (s: Step<()>)
    ensures s.result.Success? <==> c.state == Raw && outcome.OrbStarted?
    ensures s.result.Success? ==> s.conn == c.(state := Initialised, orb := Some(outcome.orb))
    ensures c.state != Raw ==> s.result == Failure(RuntimeError("ORB already initialised"))
    ensures c.state == Raw && outcome.OrbRaises? ==> s.result == Failure(ForeignError)
    ensures s.result.Failure? ==> s.conn == c
  {
    match c.state
    case Raw =>
      (match outcome
       case OrbStarted(orb) => Step(c.(state := Initialised, orb := Some(orb)), Success(()))
       case OrbRaises => Step(c, Failure(ForeignError)))
    case _ => Step(c, Failure(RuntimeError("ORB already initialised")))
  }

  /** `resolve_nameservice`: 'ORB not initialised' when raw, 'NameService
      already resolved' when ready; when initialised, a naming context moves
      the connection to ready, a transient error or a `None` context raises
      an IOError and the connection stays initialised. */
  function ResolveNameService(c: Connection, outcome: NameOutcome): (s: Step<()>)
    ensures s.result.Success? <==>
      c.state == Initialised && outcome.NameResolved? && outcome.context.Some?
    ensures s.result.Success? ==>
      s.conn == c.(state := Ready, rootContext := Some(outcome.context.value))
    ensures c.state == Raw ==> s.result == Failure(RuntimeError("ORB not initialised"))
    ensures c.state == Ready ==> s.result == Failure(RuntimeError("NameService already resolved"))
    ensures c.state == Initialised && outcome.NameTransient? ==>
      s.result == Failure(IOError("could not connect to GTC CORBA NameServer"))
    ensures c.state == Initialised && outcome == NameResolved(None) ==>
      s.result == Failure(IOError("attempt to get NameServer from GTC failed"))
    ensures c.state == Initialised && outcome.NameRaises? ==> s.result == Failure(ForeignError)
    ensures s.result.Failure? ==> s.conn == c
  {
    match c.state
    case Raw => Step(c, Failure(RuntimeError("ORB not initialised")))
    case Ready => Step(c, Failure(RuntimeError("NameService already resolved")))
    case Initialised =>
      match outcome
      case NameTransient => Step(c, Failure(IOError("could not connect to GTC CORBA NameServer")))
      case NameRaises => Step(c, Failure(ForeignError))
      case NameResolved(None) => Step(c, Failure(IOError("attempt to get NameServer from GTC failed")))
      case NameResolved(Some(root)) => Step(c.(state := Ready, rootContext := Some(root)), Success(()))
  }

  /** `get_object`: raises 'ORB not initialised' when raw and 'NameService
      needs to be resolved first' when initialised; when ready, it hands back
      the narrowed object, or raises an IOError when the lookup hits a
      transient error or the object is of another class. It never changes the
      connection. */
  function GetObject(c: Connection, bindingName: string, outcome: ObjectOutcome): (s: Step<nat>)
    ensures s.conn == c
    ensures s.result.Success? <==>
      c.state == Ready && outcome.ObjectResolved? && outcome.narrowed.Some?
    ensures s.result.Success? ==> s.result.value == outcome.narrowed.value
    ensures c.state == Raw ==> s.result == Failure(RuntimeError("ORB not initialised"))
    ensures c.state == Initialised ==>
      s.result == Failure(RuntimeError("NameService needs to be resolved first"))
    ensures c.state == Ready && outcome.ObjectTransient? ==>
      s.result == Failure(IOError("Attempt to retrieve object failed"))
    ensures c.state == Ready && outcome == ObjectResolved(None) ==>
      s.result == Failure(IOError("Attempt to retrieve object got a different class of object"))
    ensures c.state == Ready && outcome.ObjectRaises? ==> s.result == Failure(ForeignError)
  {
    match c.state
    case Raw => Step(c, Failure(RuntimeError("ORB not initialised")))
    case Initialised => Step(c, Failure(RuntimeError("NameService needs to be resolved first")))
    case Ready =>
      match outcome
      case ObjectTransient => Step(c, Failure(IOError("Attempt to retrieve object failed")))
      case ObjectRaises => Step(c, Failure(ForeignError))
      case ObjectResolved(None) =>
        Step(c, Failure(IOError("Attempt to retrieve object got a different class of object")))
      case ObjectResolved(Some(obj)) => Step(c, Success(obj))
  }

  /** A call on a connection, with what the foreign side does during it. */
  datatype Call =
    | InitOrbCall(orbOutcome: OrbOutcome)
    | ResolveCall(nameOutcome: NameOutcome)
    | GetObjectCall(bindingName: string, objectOutcome: ObjectOutcome)

  /** The connection after one call, whether it raised or not. */
  function Apply(c: Connection, call: Call): (d: Connection)
    ensures Consistent(c) ==> Consistent(d)
    ensures Rank(c.state) <= Rank(d.state) <= Rank(c.state) + 1
  {
    match call
    case InitOrbCall(o) => InitOrb(c, o).conn
    case ResolveCall(o) => ResolveNameService(c, o).conn
    case GetObjectCall(b, o) => GetObject(c, b, o).conn
  }

  /** The connection after a sequence of calls. */
  function Run(c: Connection, calls: seq<Call>): Connection
    decreases |calls|
  {
    if |calls| == 0 then c else Run(Apply(c, calls[0]), calls[1..])
  }

  /** Over any sequence of calls the state only moves forward, by at most
      one state per call, and the connection holds exactly the references
      its state has obtained. */
  lemma {:induction false} RunMovesForward(c: Connection, calls: seq<Call>)
    requires Consistent(c)
    ensures Consistent(Run(c, calls))
    ensures Rank(c.state) <= Rank(Run(c, calls).state) <= Rank(c.state) + |calls|
    decreases |calls|
  {
    if |calls| > 0 {
      RunMovesForward(Apply(c, calls[0]), calls[1..]);
    }
  }

  /** Objects can be fetched only after at least two calls on a new
      connection: `init_orb` and `resolve_nameservice` must both have
      succeeded. */
  lemma ReadyTakesTwoCalls(calls: seq<Call>)
    requires Run(NewConnection(), calls).state == Ready
    ensures |calls| >= 2
  {
    RunMovesForward(NewConnection(), calls);
  }
}
