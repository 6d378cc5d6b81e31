/** `tcp_simulation/utils/error_handler.py`: the simulator's exception
    classes, the port check, and the message `handle_error` reports before
    it exits. */
module ErrorHandler {

  /** The class of a raised exception. The five classes the module defines
      are named; `Subclass` is a class derived from another one, `Foreign`
      any class from elsewhere (a built-in `OSError`, say, or Python's own
      `PermissionError`, which the module's class of that name shadows). */
  datatype ErrorClass =
    | TcpSimulationError
    | PacketError
    | NetworkError
    | ConfigurationError
    | PermissionError
    | Subclass(name: string, parent: ErrorClass)
    | Foreign(name: string)

  /** An exception: its exact class and its `str()`. */
  datatype Error = Error(cls: ErrorClass, text: string)

  /** The class's `__name__`. */
  function ClassName(cls: ErrorClass): string {
    match cls
    case TcpSimulationError => "TCPSimulationError"
    case PacketError => "PacketError"
    case NetworkError => "NetworkError"
    case ConfigurationError => "ConfigurationError"
    case PermissionError => "PermissionError"
    case Subclass(name, _) => name
    case Foreign(name) => name
  }

  /** Whether `cls` is `ancestor` or derives from it. */
  predicate DerivesFrom(cls: ErrorClass, ancestor: ErrorClass) {
    cls == ancestor ||
    match cls
    case Subclass(_, parent) => DerivesFrom(parent, ancestor)
    case _ => ancestor == TcpSimulationError && (cls.PacketError? || cls.NetworkError? || cls.ConfigurationError? || cls.PermissionError?)
  }

  /** The fixed messages, keyed by exact class. */
  const ErrorMessages: map<ErrorClass, string> := map[
    PermissionError := "需要管理员/root权限才能运行此程序",
    NetworkError := "网络操作失败，请检查网络连接和防火墙设置",
    ConfigurationError := "配置错误，请检查参数设置",
    PacketError := "数据包处理错误，请检查网络环境"
  ]

  /** The message `handle_error` reports: the table entry for the exact
      class, or else the exception's own text. */
  function Message(error: Error): (m: string)
    ensures error.cls in {PacketError, NetworkError, ConfigurationError, PermissionError} ==>
              m == ErrorMessages[error.cls]
    ensures error.cls !in {PacketError, NetworkError, ConfigurationError, PermissionError} ==> m == error.text
  {
    if error.cls in ErrorMessages then ErrorMessages[error.cls] else error.text
  }

  /** What `handle_error` writes and the status it exits with: three lines
      to the logger when there is one, otherwise two lines to stderr. */
  datatype Report = Report(logLines: seq<string>, stderrLines: seq<string>, exitStatus: int)

  function HandleError(error: Error, hasLogger: bool): (r: Report)
    ensures r.exitStatus == 1
    ensures hasLogger ==> r.stderrLines == [] && |r.logLines| == 3 &&
                          r.logLines[1] == "错误信息: " + Message(error)
    ensures !hasLogger ==> r.logLines == [] && |r.stderrLines| == 2 &&
                           r.stderrLines[0] == "错误: " + Message(error)
  {
    if hasLogger then
      Report(["错误类型: " + ClassName(error.cls), "错误信息: " + Message(error), "详细错误: " + error.text], [], 1)
    else
      Report([], ["错误: " + Message(error), "详细错误: " + error.text], 1)
  }

  /** The exact classes with a fixed message are the four subclasses of
      `TCPSimulationError`; the base class has none. */
  lemma MappedClasses(cls: ErrorClass)
    ensures cls in ErrorMessages <==> cls in {PacketError, NetworkError, ConfigurationError, PermissionError}
    ensures cls in ErrorMessages ==> DerivesFrom(cls, TcpSimulationError) && cls != TcpSimulationError
  {
  }

  /** The lookup is by exact class: any class outside the table reports the
      exception's text, even one derived from a mapped class, and even
      Python's own `PermissionError`. */
  lemma ExactTypeLookup(error: Error)
    ensures error.cls.PermissionError? ==> Message(error) == "需要管理员/root权限才能运行此程序"
    ensures error.cls.NetworkError? ==> Message(error) == "网络操作失败，请检查网络连接和防火墙设置"
    ensures error.cls.ConfigurationError? ==> Message(error) == "配置错误，请检查参数设置"
    ensures error.cls.PacketError? ==> Message(error) == "数据包处理错误，请检查网络环境"
    ensures error.cls.TcpSimulationError? || error.cls.Subclass? || error.cls.Foreign? ==> Message(error) == error.text
  {
  }

  /** A subclass of a mapped class falls back to its text although its
      parent has a fixed message. */
  lemma SubclassFallsBack(name: string, parent: ErrorClass, text: string)
    ensures Message(Error(Subclass(name, parent), text)) == text
    ensures DerivesFrom(Subclass(name, parent), parent)
  {
  }

  /** `validate_port`: a port number is valid when it lies in 1..65535,
      that is, when it fits the sixteen-bit port field and is not 0. */
  predicate ValidatePort(port: int)
    ensures ValidatePort(port) <==> port != 0 && port % 0x1_0000 == port
  {
    0 < port < 65536
  }

  /** The port check accepts exactly the sixteen-bit values other than 0. */
  lemma PortBoundaries(port: int)
    ensures ValidatePort(port) <==> 1 <= port <= 0xFFFF
    ensures !ValidatePort(0) && ValidatePort(1) && ValidatePort(65535) && !ValidatePort(65536)
  {
  }
}
