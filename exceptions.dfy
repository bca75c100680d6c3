/**
 * The exception classes of the client (lib/zookeeper/exceptions.rb), the few Ruby core
 * exceptions the modelled code raises or rescues, the result-code-to-class mapping `by_code`
 * and `raise_on_error`.
 */
module Exceptions {
  import opened Wrappers
  import opened Constants

  /** An exception class. */
  datatype ErrorClass =
    // Ruby core classes raised or rescued by the modelled code
    | StandardError
    | RuntimeError
    | ArgumentError
    | TypeError
    | IOError
    | ThreadError
    | NameError
    | NoMethodError
    | SystemCallError
    | BrokenPipe                  // Errno::EPIPE
    | DispatchShutdownException   // the backends' private shutdown signal
    // the client's hierarchy
    | ZookeeperException
    | EverythingOk
    | SystemError
    | RunTimeInconsistency
    | DataInconsistency
    | ConnectionLoss
    | MarshallingError
    | Unimplemented
    | OperationTimeOut
    | BadArguments
    | InvalidState
    | ApiError
    | NoNode
    | NoAuth
    | BadVersion
    | NoChildrenForEphemerals
    | NodeExists
    | NotEmpty
    | SessionExpired
    | InvalidCallback
    | InvalidACL
    | AuthFailed
    | Closing
    | Nothing
    | SessionMoved
    | ConnectionClosed
    | NotConnected
    | ShuttingDownException
    | DataTooLargeException

  /** Distance from StandardError, the root of this part of the hierarchy. */
  function Depth(c: ErrorClass): nat
  {
    match c
    case StandardError => 0
    case RuntimeError | ArgumentError | TypeError | IOError | ThreadError | NameError | SystemCallError
      | DispatchShutdownException | ZookeeperException => 1
    case _ => 2
  }

  /** The direct superclass, as the class declarations state it. */
  function Superclass(c: ErrorClass): (r: Option<ErrorClass>)
    ensures r.None? <==> c == StandardError
    ensures r.Some? ==> Depth(r.value) + 1 == Depth(c)
  {
    match c
    case StandardError => None
    case RuntimeError | ArgumentError | TypeError | IOError | ThreadError | NameError | SystemCallError
      | DispatchShutdownException | ZookeeperException => Some(StandardError)
    case NoMethodError => Some(NameError)
    case BrokenPipe => Some(SystemCallError)
    case _ => Some(ZookeeperException)
  }

  /** `c <= a`: `c` is `a` or inherits from it. */
  predicate IsA(c: ErrorClass, a: ErrorClass)
    decreases Depth(c)
  {
    c == a || (Superclass(c).Some? && IsA(Superclass(c).value, a))
  }

  /** by_code: the `case` over the 24 result codes; any other code raises a RuntimeError
      ("no exception defined for code"). The case is read in two halves, split at the
      boundary between the system and the API error codes. */
  function ByCode(code: int): (r: Result<ErrorClass, ErrorClass>)
    ensures r.Ok? ==> CodeOf(r.value) == Some(code)
    ensures r.Err? ==> r.error == RuntimeError
  {
    if code >= ZINVALIDSTATE then SystemByCode(code) else ApiByCode(code)
  }

  /** The system-error half of by_code's case. */
  function SystemByCode(code: int): Result<ErrorClass, ErrorClass>
  {
    if code == ZOK then Ok(EverythingOk)
    else if code == ZSYSTEMERROR then Ok(SystemError)
    else if code == ZRUNTIMEINCONSISTENCY then Ok(RunTimeInconsistency)
    else if code == ZDATAINCONSISTENCY then Ok(DataInconsistency)
    else if code == ZCONNECTIONLOSS then Ok(ConnectionLoss)
    else if code == ZMARSHALLINGERROR then Ok(MarshallingError)
    else if code == ZUNIMPLEMENTED then Ok(Unimplemented)
    else if code == ZOPERATIONTIMEOUT then Ok(OperationTimeOut)
    else if code == ZBADARGUMENTS then Ok(BadArguments)
    else if code == ZINVALIDSTATE then Ok(InvalidState)
    else Err(RuntimeError)
  }

  /** The API-error half of by_code's case. */
  function ApiByCode(code: int): Result<ErrorClass, ErrorClass>
  {
    if code == ZAPIERROR then Ok(ApiError)
    else if code == ZNONODE then Ok(NoNode)
    else if code == ZNOAUTH then Ok(NoAuth)
    else if code == ZBADVERSION then Ok(BadVersion)
    else if code == ZNOCHILDRENFOREPHEMERALS then Ok(NoChildrenForEphemerals)
    else if code == ZNODEEXISTS then Ok(NodeExists)
    else if code == ZNOTEMPTY then Ok(NotEmpty)
    else if code == ZSESSIONEXPIRED then Ok(SessionExpired)
    else if code == ZINVALIDCALLBACK then Ok(InvalidCallback)
    else if code == ZINVALIDACL then Ok(InvalidACL)
    else if code == ZAUTHFAILED then Ok(AuthFailed)
    else if code == ZCLOSING then Ok(Closing)
    else if code == ZNOTHING then Ok(Nothing)
    else if code == ZSESSIONMOVED then Ok(SessionMoved)
    else Err(RuntimeError)
  }

  /** The result codes `by_code` knows, as the constants table defines them. */
  function KnownCodes(): set<int>
  {
    set c | c in SystemErrors() + ApiErrors() :: c.value
  }

  /** The code a result-code class stands for: an independent reading of the case table,
      class to code. */
  function CodeOf(k: ErrorClass): (r: Option<int>)
  {
    match k
    case EverythingOk => Some(ZOK)
    case SystemError => Some(ZSYSTEMERROR)
    case RunTimeInconsistency => Some(ZRUNTIMEINCONSISTENCY)
    case DataInconsistency => Some(ZDATAINCONSISTENCY)
    case ConnectionLoss => Some(ZCONNECTIONLOSS)
    case MarshallingError => Some(ZMARSHALLINGERROR)
    case Unimplemented => Some(ZUNIMPLEMENTED)
    case OperationTimeOut => Some(ZOPERATIONTIMEOUT)
    case BadArguments => Some(ZBADARGUMENTS)
    case InvalidState => Some(ZINVALIDSTATE)
    case ApiError => Some(ZAPIERROR)
    case NoNode => Some(ZNONODE)
    case NoAuth => Some(ZNOAUTH)
    case BadVersion => Some(ZBADVERSION)
    case NoChildrenForEphemerals => Some(ZNOCHILDRENFOREPHEMERALS)
    case NodeExists => Some(ZNODEEXISTS)
    case NotEmpty => Some(ZNOTEMPTY)
    case SessionExpired => Some(ZSESSIONEXPIRED)
    case InvalidCallback => Some(ZINVALIDCALLBACK)
    case InvalidACL => Some(ZINVALIDACL)
    case AuthFailed => Some(ZAUTHFAILED)
    case Closing => Some(ZCLOSING)
    case Nothing => Some(ZNOTHING)
    case SessionMoved => Some(ZSESSIONMOVED)
    case _ => None
  }

  /** raise_on_error: the class raised, or None when the call returns normally. */
  function RaiseOnError(code: int): (r: Option<ErrorClass>)
    ensures r.None? <==> code == ZOK
    ensures code != ZOK && ByCode(code).Ok? ==> r == Some(ByCode(code).value)
    ensures ByCode(code).Err? ==> r == Some(RuntimeError)
  {
    match ByCode(code)
    case Err(e) => Some(e)
    case Ok(k) => if k == EverythingOk then None else Some(k)
  }

  /** Every system error code of the table has a class. */
  lemma SystemCodesMapped(c: Constant)
    requires c in SystemErrors()
    ensures ByCode(c.value).Ok?
  {
  }

  /** Every API error code of the table has a class. */
  lemma ApiCodesMapped(c: Constant)
    requires c in ApiErrors()
    ensures ByCode(c.value).Ok?
  {
    var errors := ApiErrors();
    var i :| 0 <= i < |errors| && errors[i] == c;
    if i < 7 {
      ApiCodesMappedLow(i);
    } else {
      ApiCodesMappedHigh(i);
    }
  }

  lemma ApiCodesMappedLow(i: int)
    requires 0 <= i < 7
    ensures ByCode(ApiErrors()[i].value).Ok?
  {
    var errors := ApiErrors();
    if i == 0 { assert errors[i].value == ZAPIERROR; }
    else if i == 1 { assert errors[i].value == ZNONODE; }
    else if i == 2 { assert errors[i].value == ZNOAUTH; }
    else if i == 3 { assert errors[i].value == ZBADVERSION; }
    else if i == 4 { assert errors[i].value == ZNOCHILDRENFOREPHEMERALS; }
    else if i == 5 { assert errors[i].value == ZNODEEXISTS; }
    else { assert errors[i].value == ZNOTEMPTY; }
  }

  lemma ApiCodesMappedHigh(i: int)
    requires 7 <= i < 14
    ensures ByCode(ApiErrors()[i].value).Ok?
  {
    var errors := ApiErrors();
    if i == 7 { assert errors[i].value == ZSESSIONEXPIRED; }
    else if i == 8 { assert errors[i].value == ZINVALIDCALLBACK; }
    else if i == 9 { assert errors[i].value == ZINVALIDACL; }
    else if i == 10 { assert errors[i].value == ZAUTHFAILED; }
    else if i == 11 { assert errors[i].value == ZCLOSING; }
    else if i == 12 { assert errors[i].value == ZNOTHING; }
    else { assert errors[i].value == ZSESSIONMOVED; }
  }

  /** A system-range code with a class is a system error code of the table. */
  lemma MappedSystemCodeListed(code: int)
    requires ByCode(code).Ok? && code >= ZINVALIDSTATE
    ensures exists c :: c in SystemErrors() && c.value == code
  {
    var errors := SystemErrors();
    var c := errors[0];
    if code == ZSYSTEMERROR { c := errors[1]; }
    else if code == ZRUNTIMEINCONSISTENCY { c := errors[2]; }
    else if code == ZDATAINCONSISTENCY { c := errors[3]; }
    else if code == ZCONNECTIONLOSS { c := errors[4]; }
    else if code == ZMARSHALLINGERROR { c := errors[5]; }
    else if code == ZUNIMPLEMENTED { c := errors[6]; }
    else if code == ZOPERATIONTIMEOUT { c := errors[7]; }
    else if code == ZBADARGUMENTS { c := errors[8]; }
    else if code == ZINVALIDSTATE { c := errors[9]; }
    assert c in errors && c.value == code;
  }

  /** An API-range code with a class is an API error code of the table. */
  lemma MappedApiCodeListed(code: int)
    requires ByCode(code).Ok? && code < ZINVALIDSTATE
    ensures exists c :: c in ApiErrors() && c.value == code
  {
    var errors := ApiErrors();
    var c := errors[0];
    if code == ZNONODE { c := errors[1]; }
    else if code == ZNOAUTH { c := errors[2]; }
    else if code == ZBADVERSION { c := errors[3]; }
    else if code == ZNOCHILDRENFOREPHEMERALS { c := errors[4]; }
    else if code == ZNODEEXISTS { c := errors[5]; }
    else if code == ZNOTEMPTY { c := errors[6]; }
    else if code == ZSESSIONEXPIRED { c := errors[7]; }
    else if code == ZINVALIDCALLBACK { c := errors[8]; }
    else if code == ZINVALIDACL { c := errors[9]; }
    else if code == ZAUTHFAILED { c := errors[10]; }
    else if code == ZCLOSING { c := errors[11]; }
    else if code == ZNOTHING { c := errors[12]; }
    else if code == ZSESSIONMOVED { c := errors[13]; }
    assert c in errors && c.value == code;
  }

  /** by_code is defined exactly on the result codes of the constants table. */
  lemma ByCodeDefinedOnKnownCodes(code: int)
    ensures ByCode(code).Ok? <==> code in KnownCodes()
  {
    if ByCode(code).Ok? {
      if code >= ZINVALIDSTATE {
        MappedSystemCodeListed(code);
        var c :| c in SystemErrors() && c.value == code;
        assert c in SystemErrors() + ApiErrors();
      } else {
        MappedApiCodeListed(code);
        var c :| c in ApiErrors() && c.value == code;
        assert c in SystemErrors() + ApiErrors();
      }
    } else if code in KnownCodes() {
      var c :| c in SystemErrors() + ApiErrors() && c.value == code;
      if c in SystemErrors() {
        SystemCodesMapped(c);
      } else {
        ApiCodesMapped(c);
      }
    }
  }

  /** by_code and CodeOf are inverse: each listed code has its own class, so distinct codes
      map to distinct classes. */
  lemma ByCodeInverse(code: int, k: ErrorClass)
    ensures ByCode(code) == Ok(k) <==> CodeOf(k) == Some(code)
  {
  }

  /** Distinct listed codes map to distinct classes. */
  lemma ByCodeInjective(c1: int, c2: int)
    requires ByCode(c1).Ok? && ByCode(c1) == ByCode(c2)
    ensures c1 == c2
  {
    ByCodeInverse(c1, ByCode(c1).value);
    ByCodeInverse(c2, ByCode(c2).value);
  }

  /** Every class by_code returns is a ZookeeperException. */
  lemma ByCodeIsZookeeperException(code: int)
    requires ByCode(code).Ok?
    ensures IsA(ByCode(code).value, ZookeeperException)
  {
  }

  /** The client's own exceptions are ZookeeperExceptions. */
  lemma ClientExceptionsAreZookeeperExceptions()
    ensures IsA(ConnectionClosed, ZookeeperException) && IsA(NotConnected, ZookeeperException)
    ensures IsA(ShuttingDownException, ZookeeperException) && IsA(DataTooLargeException, ZookeeperException)
  {
    DirectSubclassIsA(ConnectionClosed, ZookeeperException);
    DirectSubclassIsA(NotConnected, ZookeeperException);
    DirectSubclassIsA(ShuttingDownException, ZookeeperException);
    DirectSubclassIsA(DataTooLargeException, ZookeeperException);
  }

  /** A class is a kind of its direct superclass. */
  lemma DirectSubclassIsA(c: ErrorClass, a: ErrorClass)
    requires Superclass(c) == Some(a)
    ensures IsA(c, a)
  {
    assert IsA(a, a);
  }

  /** ZookeeperException is a StandardError, is not EverythingOk, and a RuntimeError (what
      by_code raises for an unknown code) is not a ZookeeperException. */
  lemma ZookeeperExceptionPlacement()
    ensures IsA(ZookeeperException, StandardError) && !IsA(ZookeeperException, EverythingOk)
    ensures !IsA(RuntimeError, ZookeeperException)
  {
    assert Superclass(ZookeeperException) == Some(StandardError);
    assert Superclass(RuntimeError) == Some(StandardError);
    assert !IsA(StandardError, ZookeeperException) && !IsA(StandardError, EverythingOk);
  }
}
