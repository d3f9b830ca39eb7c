/**
 * `chats/middleware.py`: two Django middlewares. `RestrictAccessByTimeMiddleware`
 * lets a request through to the next handler only between 18:00 and 21:00,
 * both ends included; `RequestLoggingMiddleware` labels the user for its log
 * line and always passes the request on.
 *
 * The clock is an input (`now`), the log file write is not modelled, and the
 * next handler `get_response` is a function supplied by whoever builds the
 * middleware.
 */
module Middleware {

  // ---------------------------------------------------------------------------
  // Times of day

  /** A `datetime.time` without time zone: hour, minute, second, microsecond. */
  datatype Time = Time(hour: nat, minute: nat, second: nat, microsecond: nat) {
    predicate Valid() {
      hour < 24 && minute < 60 && second < 60 && microsecond < 1_000_000
    }
  }

  /** The times `datetime.now().time()` can return. */
  type ClockTime = t: Time | t.Valid() witness Time(0, 0, 0, 0)

  const MICROS_PER_DAY: nat := 86_400_000_000

  /** `a <= b` on `datetime.time`: fields compared in order, hour first. */
  predicate LessEq(a: Time, b: Time) {
    if a.hour != b.hour then a.hour < b.hour
    else if a.minute != b.minute then a.minute < b.minute
    else if a.second != b.second then a.second < b.second
    else a.microsecond <= b.microsecond
  }

  /** Microseconds since midnight. */
  function Micros(t: ClockTime): (n: nat)
    ensures n < MICROS_PER_DAY
  {
    ((t.hour * 60 + t.minute) * 60 + t.second) * 1_000_000 + t.microsecond
  }

  /** The time of day `n` microseconds after midnight. */
  function FromMicros(n: nat): (t: ClockTime)
    requires n < MICROS_PER_DAY
    ensures Micros(t) == n
  {
    var seconds := n / 1_000_000;
    var minutes := seconds / 60;
    Time(minutes / 60, minutes % 60, seconds % 60, n % 1_000_000)
  }

  /** A time of day is determined by its microseconds since midnight. */
  lemma FromMicrosOfMicros(t: ClockTime)
    ensures FromMicros(Micros(t)) == t
  {
    var u := FromMicros(Micros(t));
    MicrosInjective(t, u);
  }

  /** Distinct times of day are distinct instants: the order of times is antisymmetric. */
  lemma MicrosInjective(a: ClockTime, b: ClockTime)
    requires Micros(a) == Micros(b)
    ensures a == b
  {
    LessEqIsMicros(a, b);
    LessEqIsMicros(b, a);
  }

  /** The comparison of times is the comparison of their microseconds since midnight. */
  lemma LessEqIsMicros(a: ClockTime, b: ClockTime)
    ensures LessEq(a, b) <==> Micros(a) <= Micros(b)
  {
    var sa, sb := Seconds(a), Seconds(b);
    assert Micros(a) == sa * 1_000_000 + a.microsecond && Micros(b) == sb * 1_000_000 + b.microsecond;
    if sa < sb {
      SecondsOrder(a, b);
    } else if sb < sa {
      SecondsOrder(b, a);
    }
  }

  /** Seconds since midnight. */
  function Seconds(t: ClockTime): nat {
    (t.hour * 60 + t.minute) * 60 + t.second
  }

  /**
   * On whole seconds, the field-by-field order is the order of seconds since
   * midnight, and a second apart is a million microseconds apart.
   */
  lemma SecondsOrder(a: ClockTime, b: ClockTime)
    requires Seconds(a) < Seconds(b)
    ensures LessEq(a, b) && !LessEq(b, a)
    ensures Micros(a) < Micros(b)
  {
  }

  // ---------------------------------------------------------------------------
  // Requests and responses

  /** The part of `request.user` the middlewares look at. */
  datatype User = User(username: string, isAuthenticated: bool)

  datatype Request = Request(user: User, path: string)

  const FORBIDDEN_MESSAGE := "\U{26D4} Access to chats is only allowed between 6 PM and 9 PM."

  /** What a middleware returns: `HttpResponseForbidden(body)` or the next handler's response. */
  datatype Response<+R> = Forbidden(body: string) | Downstream(response: R)

  /** The response, and the requests handed to `get_response`, in order. */
  datatype Dispatch<+R> = Dispatch(response: Response<R>, forwarded: seq<Request>)

  // ---------------------------------------------------------------------------
  // RestrictAccessByTimeMiddleware

  const START := Time(18, 0, 0, 0)
  const END := Time(21, 0, 0, 0)

  /** `start_time <= current_time <= end_time`. */
  predicate InWindow(now: ClockTime) {
    LessEq(START, now) && LessEq(now, END)
  }

  /** The window in microseconds since midnight: from 18:00 to 21:00, both included. */
  lemma InWindowIsMicros(now: ClockTime)
    ensures InWindow(now) <==> 64_800_000_000 <= Micros(now) <= 75_600_000_000
  {
    LessEqIsMicros(START, now);
    LessEqIsMicros(now, END);
  }

  /** In terms of the clock fields: any time from 18:00 to 20:59, or exactly 21:00:00.000000. */
  lemma InWindowByFields(now: ClockTime)
    ensures InWindow(now) <==>
      (18 <= now.hour <= 20 || (now.hour == 21 && now.minute == 0 && now.second == 0 && now.microsecond == 0))
  {
  }

  /** The edges of the window: both ends are allowed, one microsecond beyond either is refused. */
  lemma WindowEdges()
    ensures InWindow(Time(18, 0, 0, 0)) && InWindow(Time(21, 0, 0, 0))
    ensures !InWindow(Time(17, 59, 59, 999_999)) && !InWindow(Time(21, 0, 0, 1))
  {
  }

  datatype RestrictAccessByTimeMiddleware<!R> = RestrictAccessByTimeMiddleware(getResponse: Request -> R) {
    /**
     * `__call__` at time of day `now`: inside the window the request goes to
     * the next handler once and its response is returned as it is; outside
     * it the forbidden response is returned and nothing is forwarded.
     */
    function Call(request: Request, now: ClockTime): (d: Dispatch<R>)
      ensures d.response.Forbidden? <==> !(64_800_000_000 <= Micros(now) <= 75_600_000_000)
      ensures d.response.Forbidden? ==> d.response.body == FORBIDDEN_MESSAGE && d.forwarded == []
      ensures d.response.Downstream? ==>
                d.response.response == getResponse(request) && d.forwarded == [request]
    {
      InWindowIsMicros(now);
      if !InWindow(now) then Dispatch(Forbidden(FORBIDDEN_MESSAGE), [])
      else Dispatch(Downstream(getResponse(request)), [request])
    }
  }

  /** The gate depends on the time only: the same request at the same time is decided the same way for any handler. */
  lemma GateIgnoresRequest<R>(m1: RestrictAccessByTimeMiddleware<R>, m2: RestrictAccessByTimeMiddleware<R>,
                              r1: Request, r2: Request, now: ClockTime)
    ensures m1.Call(r1, now).response.Forbidden? == m2.Call(r2, now).response.Forbidden?
  {
  }

  // ---------------------------------------------------------------------------
  // RequestLoggingMiddleware

  /** The user as the log line shows it: the user's name when authenticated, `Anonymous` otherwise. */
  function UserLabel(user: User): (shown: string)
    ensures user.isAuthenticated ==> shown == user.username
    ensures !user.isAuthenticated ==> shown == "Anonymous"
  {
    if user.isAuthenticated then user.username else "Anonymous"
  }

  /** The line logged for a request at the clock reading printed as `now`. */
  function LogMessage(now: string, request: Request): (line: string)
    ensures |line| == |now| + |" - User: "| + |UserLabel(request.user)| + |" - Path: "| + |request.path|
    ensures line[..|now|] == now
    ensures line[|line| - |request.path|..] == request.path
    ensures line[|now|..|line| - |request.path|] == " - User: " + UserLabel(request.user) + " - Path: "
  {
    now + " - User: " + UserLabel(request.user) + " - Path: " + request.path
  }

  datatype RequestLoggingMiddleware<!R> = RequestLoggingMiddleware(getResponse: Request -> R) {
    /**
     * `__call__`: the request goes to the next handler exactly once and its
     * response comes back unchanged; `log` is the line written to the log.
     */
    function Call(request: Request, now: string): (d: (Dispatch<R>, string))
      ensures d.0 == Dispatch(Downstream(getResponse(request)), [request])
      ensures d.1 == LogMessage(now, request)
    {
      (Dispatch(Downstream(getResponse(request)), [request]), LogMessage(now, request))
    }
  }

  /**
   * The logging middleware in front of the time gate, as a settings list
   * would stack them: the gate decides, and the log line is written whatever
   * it decides.
   */
  lemma LoggingInFrontOfGate<R>(gate: RestrictAccessByTimeMiddleware<R>, request: Request,
                                now: ClockTime, nowText: string)
    ensures var logging := RequestLoggingMiddleware(r => gate.Call(r, now).response);
            var (d, line) := logging.Call(request, nowText);
            && d.response.response == gate.Call(request, now).response
            && line == LogMessage(nowText, request)
            && (d.response.response.Forbidden? <==> !InWindow(now))
  {
  }
}
