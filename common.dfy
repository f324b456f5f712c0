/** Small vocabulary shared by the worker, the websocket server and the API:
    optional values, results, the Redis status key, abstract connections and
    the outcome of sending on one of them. */
module Common {

  datatype Option<+T> = None | Some(value: T) {
    function GetOr(default: T): T {
      match this
      case Some(v) => v
      case None => default
    }
  }

  datatype Result<+R, +E> = Success(value: R) | Failure(error: E)

  /** Python truthiness of an optional string: present and non-empty. */
  predicate Truthy(s: Option<string>) {
    s.Some? && s.value != ""
  }

  /** The Redis key under which the status record of a job is stored. */
  function StatusKey(jobId: string): string {
    "job:" + jobId
  }

  /** An open websocket, identified abstractly. */
  type Conn = nat

  /** What one `send` on a connection does. */
  datatype SendOutcome = Delivered | ConnectionClosed | SendError

  /** The network, as far as the registries can observe it: connections that
      are closed raise `ConnectionClosed`, failing ones raise another error,
      all others accept the message. */
  datatype Network = Network(closed: set<Conn>, failing: set<Conn>)

  function Outcome(net: Network, c: Conn): SendOutcome {
    if c in net.closed then ConnectionClosed
    else if c in net.failing then SendError
    else Delivered
  }

  predicate StartsWith(s: string, prefix: string) {
    |prefix| <= |s| && s[..|prefix|] == prefix
  }

  predicate EndsWith(s: string, suffix: string) {
    |suffix| <= |s| && s[|s| - |suffix|..] == suffix
  }

  function DigitChar(d: nat): char
    requires d < 10
  {
    "0123456789"[d]
  }

  /** Decimal rendering of a natural number, as Python's `str` of an int. */
  function DecimalString(n: nat): (s: string)
    ensures |s| > 0
    decreases n
  {
    if n < 10 then [DigitChar(n)] else DecimalString(n / 10) + [DigitChar(n % 10)]
  }

  function Last<T>(s: seq<T>): T
    requires s != []
  {
    s[|s| - 1]
  }

  function AllButLast<T>(s: seq<T>): seq<T>
    requires s != []
  {
    s[..|s| - 1]
  }
}
