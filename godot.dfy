/**
 * The automation façade of python/playgodot/godot.py: the polling loop
 * behind every wait, its node-existence and visibility specialisations,
 * key-spec parsing, the launch command line and port choice, click routing
 * and the not-found rule of `get_node`.
 *
 * Time is a supplied trace: the clock reading taken when the wait starts and,
 * for each evaluation of the condition, what it returned or that it raised
 * together with the clock reading taken after it.
 */
module Godot {
  import opened Wrappers
  import opened Json
  import Text
  import Client

  /** The addon's WebSocket port, which is also the default `port` argument. */
  const AddonPort: int := 9999
  /** The engine's default remote-debugger port. */
  const DebuggerPort: int := 6007

  datatype GodotError =
    | NodeNotFound(path: string)
    | CoordinateRequired(message: string)   // ValueError
    | NotADict                               // AttributeError from `result.get(...)`
    | ClientFailure(error: Client.ClientError)
    | ExecutableNotFound                     // "Godot executable not found. ..."

  /** A value a condition returns: decoded data, or a node wrapper (always truthy). */
  datatype PyValue = Data(j: Json) | NodeObject(path: string, info: Json)

  /** Python `bool(v)`. */
  predicate IsTruthy(v: PyValue)
  {
    match v
    case Data(j) => Truthy(j)
    case NodeObject(_, _) => true
  }

  /** Python `v == expected` for a decoded `expected`: a node wrapper equals no JSON value. */
  predicate EqualsExpected(v: PyValue, expected: Json)
  {
    v.Data? && PyEq(v.j, expected)
  }

  /**
   * One evaluation of the condition: the value it returned, that it raised an
   * `Exception`, or that it raised `asyncio.CancelledError`, which is not an
   * `Exception` and so escapes the loop's handler.
   */
  datatype Check = Returned(v: PyValue) | Raised | Escaped

  /** An evaluation of the condition and the clock reading taken after it. */
  datatype Poll = Poll(check: Check, clock: real)

  /** The text of the TimeoutError: the caller's message, or "Condition not met within {timeout}s". */
  datatype TimeoutText = Custom(text: string) | NotMetWithin(timeout: real)

  /**
   * How a wait ends after `checks` evaluations: with the accepted value, with
   * a TimeoutError, or with the CancelledError of the last evaluation; or
   * still polling when the trace runs out.
   */
  datatype WaitResult =
    | Satisfied(value: PyValue, checks: nat)
    | TimedOut(reason: TimeoutText, checks: nat)
    | Interrupted(checks: nat)
    | TraceEnded

  /** Python `message or f"Condition not met within {timeout}s"`. */
  function TimeoutMessage(message: Option<string>, timeout: real): (t: TimeoutText)
    ensures t.Custom? <==> message.Some? && message.value != ""
    ensures t.Custom? ==> t.text == message.value
    ensures t.NotMetWithin? ==> t.timeout == timeout
  {
    if message.Some? && message.value != "" then Custom(message.value) else NotMetWithin(timeout)
  }

  /**
   * Whether `_wait_for` returns on this evaluation: with `expected` set (not
   * `None`, that is not JSON null) only on `result == expected`, otherwise on
   * any truthy result. A raised exception never satisfies it.
   */
  predicate Accepts(expected: Json, c: Check)
  {
    match c
    case Raised => false
    case Escaped => false
    case Returned(v) => if expected != JNull then EqualsExpected(v, expected) else IsTruthy(v)
  }

  /** The loop goes round again after this poll: not accepted, not escaped and not past the deadline. */
  predicate KeepsPolling(p: Poll, start: real, timeout: real, expected: Json)
  {
    !Accepts(expected, p.check) && !p.check.Escaped? && p.clock - start < timeout
  }

  /** The outcome of `_wait_for` from the `i`-th evaluation on. */
  function WaitFrom(start: real, polls: seq<Poll>, i: nat, timeout: real, expected: Json,
                    message: Option<string>): WaitResult
    decreases |polls| - i
  {
    if i >= |polls| then TraceEnded
    else if polls[i].check.Escaped? then Interrupted(i + 1)
    else if Accepts(expected, polls[i].check) then Satisfied(polls[i].check.v, i + 1)
    else if polls[i].clock - start >= timeout then TimedOut(TimeoutMessage(message, timeout), i + 1)
    else WaitFrom(start, polls, i + 1, timeout, expected, message)
  }

  /**
   * `_wait_for`: evaluate, return on acceptance, else read the clock and
   * raise once the elapsed time reaches the timeout, else sleep and repeat.
   * A CancelledError from the evaluation is not caught and ends the wait.
   */
  method WaitFor(start: real, polls: seq<Poll>, timeout: real, expected: Json, message: Option<string>)
    returns (r: WaitResult)
    ensures r == WaitFrom(start, polls, 0, timeout, expected, message)
  {
    var i := 0;
    while i < |polls|
      invariant 0 <= i <= |polls|
      invariant WaitFrom(start, polls, 0, timeout, expected, message) == WaitFrom(start, polls, i, timeout, expected, message)
    {
      var check := polls[i].check;
      if check.Escaped? {
        return Interrupted(i + 1);
      }
      if check.Returned? {
        var result := check.v;
        if expected != JNull {
          if EqualsExpected(result, expected) {
            return Satisfied(result, i + 1);
          }
        } else if IsTruthy(result) {
          return Satisfied(result, i + 1);
        }
      }
      var elapsed := polls[i].clock - start;
      if elapsed >= timeout {
        return TimedOut(TimeoutMessage(message, timeout), i + 1);
      }
      i := i + 1;
    }
    r := TraceEnded;
  }

  /**
   * What every outcome of the loop means: a value is returned only from an
   * accepting evaluation, a TimeoutError only after a failed evaluation whose
   * elapsed time reached the timeout, a CancelledError only from an
   * evaluation that raised it, and every evaluation before any of these kept
   * polling.
   */
  lemma {:induction false} WaitOutcome(start: real, polls: seq<Poll>, i: nat, timeout: real, expected: Json,
                                       message: Option<string>)
    ensures var r := WaitFrom(start, polls, i, timeout, expected, message);
      && (r.Satisfied? ==>
            && i < r.checks <= |polls|
            && polls[r.checks - 1].check == Returned(r.value)
            && Accepts(expected, polls[r.checks - 1].check)
            && forall j :: i <= j < r.checks - 1 ==> KeepsPolling(polls[j], start, timeout, expected))
      && (r.TimedOut? ==>
            && i < r.checks <= |polls|
            && r.reason == TimeoutMessage(message, timeout)
            && !Accepts(expected, polls[r.checks - 1].check)
            && !polls[r.checks - 1].check.Escaped?
            && polls[r.checks - 1].clock - start >= timeout
            && forall j :: i <= j < r.checks - 1 ==> KeepsPolling(polls[j], start, timeout, expected))
      && (r.Interrupted? ==>
            && i < r.checks <= |polls|
            && polls[r.checks - 1].check == Escaped
            && forall j :: i <= j < r.checks - 1 ==> KeepsPolling(polls[j], start, timeout, expected))
      && (r.TraceEnded? ==> forall j :: i <= j < |polls| ==> KeepsPolling(polls[j], start, timeout, expected))
    decreases |polls| - i
  {
    if i < |polls| && KeepsPolling(polls[i], start, timeout, expected) {
      WaitOutcome(start, polls, i + 1, timeout, expected, message);
    }
  }

  /**
   * Conversely, the loop stops at the first evaluation that does not keep it
   * polling: with its CancelledError if it raised one, with its value if it
   * was accepted, else with a TimeoutError.
   */
  lemma {:induction false} WaitStopsAtFirstStop(start: real, polls: seq<Poll>, i: nat, k: nat, timeout: real,
                                                expected: Json, message: Option<string>)
    requires i <= k < |polls|
    requires forall j :: i <= j < k ==> KeepsPolling(polls[j], start, timeout, expected)
    requires !KeepsPolling(polls[k], start, timeout, expected)
    ensures WaitFrom(start, polls, i, timeout, expected, message) ==
      if polls[k].check.Escaped? then Interrupted(k + 1)
      else if Accepts(expected, polls[k].check) then Satisfied(polls[k].check.v, k + 1)
      else TimedOut(TimeoutMessage(message, timeout), k + 1)
    decreases k - i
  {
    if i < k {
      WaitStopsAtFirstStop(start, polls, i + 1, k, timeout, expected, message);
    }
  }

  /**
   * The condition is evaluated before any deadline test: an accepting first
   * evaluation wins whatever the timeout, and with a timeout of 0 (and a clock
   * that does not run backwards) the wait ends after exactly one evaluation.
   */
  lemma FirstCheckBeforeDeadline(start: real, polls: seq<Poll>, timeout: real, expected: Json, message: Option<string>)
    requires |polls| >= 1
    ensures Accepts(expected, polls[0].check) ==>
              WaitFrom(start, polls, 0, timeout, expected, message) == Satisfied(polls[0].check.v, 1)
    ensures timeout <= 0.0 && polls[0].clock >= start ==>
              var r := WaitFrom(start, polls, 0, timeout, expected, message);
              !r.TraceEnded? && r.checks == 1
  {
  }

  /** The public `wait_for`: no expected value and no custom message. */
  method WaitForCondition(start: real, polls: seq<Poll>, timeout: real) returns (r: WaitResult)
    ensures r == WaitFrom(start, polls, 0, timeout, JNull, None)
    ensures r.Satisfied? ==> 1 <= r.checks <= |polls| && IsTruthy(r.value) && polls[r.checks - 1].check == Returned(r.value)
    ensures r.TimedOut? ==> r.reason == NotMetWithin(timeout)
    ensures r.Interrupted? ==> 1 <= r.checks <= |polls| && polls[r.checks - 1].check == Escaped
  {
    r := WaitFor(start, polls, timeout, JNull, None);
    WaitOutcome(start, polls, 0, timeout, JNull, None);
  }

  /** `get_node` on the outcome of its `send("get_node", {"path": path})`. */
  function GetNode(path: string, reply: Result<Json, Client.ClientError>): (r: Result<PyValue, GodotError>)
    ensures r.Ok? <==> reply.Ok? && reply.value != JNull
    ensures r.Ok? ==> r.value == NodeObject(path, reply.value)
    ensures reply.Ok? && reply.value == JNull ==> r == Err(NodeNotFound(path))
    ensures reply.Err? ==> r == Err(ClientFailure(reply.error))
  {
    match reply
    case Err(e) => Err(ClientFailure(e))
    case Ok(result) => if result == JNull then Err(NodeNotFound(path)) else Ok(NodeObject(path, result))
  }

  /** `get_property` on the outcome of its `send`: `result.get("value")`. */
  function GetProperty(reply: Result<Json, Client.ClientError>): (r: Result<Json, GodotError>)
    ensures reply.Ok? && reply.value.JObj? ==> r == Ok(Get(reply.value.fields, "value"))
    ensures reply.Ok? && !reply.value.JObj? ==> r == Err(NotADict)
    ensures reply.Err? ==> r == Err(ClientFailure(reply.error))
  {
    match reply
    case Err(e) => Err(ClientFailure(e))
    case Ok(result) => if result.JObj? then Ok(Get(result.fields, "value")) else Err(NotADict)
  }

  /** The outcome of one `send` issued by a condition, and the clock reading after it. */
  datatype Reply = Reply(result: Result<Json, Client.ClientError>, clock: real)

  /** The message `wait_for_node` passes on. */
  function NodeMessage(path: string): string
  {
    "Node '" + path + "' not found"
  }

  /** The message `wait_for_visible` passes on. */
  function VisibleMessage(path: string): string
  {
    "Node '" + path + "' not visible"
  }

  /** The `send` was cancelled: awaiting its future raised CancelledError. */
  predicate SendCancelled(reply: Result<Json, Client.ClientError>)
  {
    reply == Err(Client.RequestCancelled)
  }

  /** `get_node` finds the node: the reply is not null. */
  predicate FindsNode(reply: Result<Json, Client.ClientError>)
  {
    reply.Ok? && reply.value != JNull
  }

  /**
   * The check of `wait_for_node`, `get_node(path)`: it returns the node, raises
   * CancelledError for a cancelled send, and raises an `Exception` otherwise.
   */
  function NodeCheck(path: string, reply: Result<Json, Client.ClientError>): (c: Check)
    ensures c.Returned? <==> FindsNode(reply)
    ensures c.Returned? ==> c.v == NodeObject(path, reply.value)
    ensures c == Escaped <==> SendCancelled(reply)
  {
    if SendCancelled(reply) then Escaped
    else match GetNode(path, reply)
         case Ok(node) => Returned(node)
         case Err(_) => Raised
  }

  /** The polls of `wait_for_node`. */
  function NodePolls(path: string, replies: seq<Reply>): (polls: seq<Poll>)
    ensures |polls| == |replies|
  {
    seq(|replies|, i requires 0 <= i < |replies| => Poll(NodeCheck(path, replies[i].result), replies[i].clock))
  }

  /**
   * `wait_for_node`: returns the first node `get_node` finds, ends with the
   * CancelledError of a cancelled send, or times out with its own message.
   */
  method WaitForNode(path: string, timeout: real, start: real, replies: seq<Reply>) returns (r: WaitResult)
    ensures r == WaitFrom(start, NodePolls(path, replies), 0, timeout, JNull, Some(NodeMessage(path)))
    ensures !r.TraceEnded? ==>
              && 1 <= r.checks <= |replies|
              && forall j :: 0 <= j < r.checks - 1 ==> !FindsNode(replies[j].result) && !SendCancelled(replies[j].result)
    ensures r.Satisfied? ==>
              && 1 <= r.checks <= |replies|
              && FindsNode(replies[r.checks - 1].result)
              && r.value == NodeObject(path, replies[r.checks - 1].result.value)
    ensures r.Interrupted? ==> 1 <= r.checks <= |replies| && SendCancelled(replies[r.checks - 1].result)
    ensures r.TimedOut? ==>
              && 1 <= r.checks <= |replies|
              && r.reason == Custom(NodeMessage(path))
              && !FindsNode(replies[r.checks - 1].result) && !SendCancelled(replies[r.checks - 1].result)
  {
    var polls := NodePolls(path, replies);
    r := WaitFor(start, polls, timeout, JNull, Some(NodeMessage(path)));
    WaitOutcome(start, polls, 0, timeout, JNull, Some(NodeMessage(path)));
    if !r.TraceEnded? {
      forall j | 0 <= j < r.checks - 1
        ensures !FindsNode(replies[j].result) && !SendCancelled(replies[j].result)
      {
        assert KeepsPolling(polls[j], start, timeout, JNull);
      }
    }
  }

  /** A cancelled first `get_node` send ends `wait_for_node` at once, whatever follows. */
  lemma CancelledSendEndsNodeWait(path: string, timeout: real, start: real, replies: seq<Reply>)
    requires |replies| >= 1 && SendCancelled(replies[0].result)
    ensures WaitFrom(start, NodePolls(path, replies), 0, timeout, JNull, Some(NodeMessage(path))) == Interrupted(1)
  {
  }

  /**
   * The check of `wait_for_visible`: `bool(get_property(path, "visible"))`.
   * A cancelled send raises CancelledError, which neither its own handler
   * nor the loop's catches; anything else `get_property` raises makes the
   * evaluation raise an `Exception`.
   */
  function VisibleCheck(reply: Result<Json, Client.ClientError>): (c: Check)
    ensures c.Returned? <==> reply.Ok? && reply.value.JObj?
    ensures c.Returned? ==> c.v == Data(JBool(ReportsVisible(reply)))
    ensures c == Escaped <==> SendCancelled(reply)
  {
    if SendCancelled(reply) then Escaped
    else match GetProperty(reply)
         case Ok(visible) => Returned(Data(JBool(Truthy(visible))))
         case Err(_) => Raised
  }

  function VisiblePolls(replies: seq<Reply>): (polls: seq<Poll>)
    ensures |polls| == |replies|
  {
    seq(|replies|, i requires 0 <= i < |replies| => Poll(VisibleCheck(replies[i].result), replies[i].clock))
  }

  /** The node is reported visible: the property read returned a truthy `value`. */
  predicate ReportsVisible(reply: Result<Json, Client.ClientError>)
  {
    reply.Ok? && reply.value.JObj? && Truthy(Get(reply.value.fields, "value"))
  }

  /**
   * `wait_for_visible`: polls for `True`, ending on the first reply reporting
   * the node visible, on the CancelledError of a cancelled send, or with its
   * own timeout message.
   */
  method WaitForVisible(path: string, timeout: real, start: real, replies: seq<Reply>) returns (r: WaitResult)
    ensures r == WaitFrom(start, VisiblePolls(replies), 0, timeout, JBool(true), Some(VisibleMessage(path)))
    ensures !r.TraceEnded? ==>
              && 1 <= r.checks <= |replies|
              && forall j :: 0 <= j < r.checks - 1 ==> !ReportsVisible(replies[j].result) && !SendCancelled(replies[j].result)
    ensures r.Satisfied? ==>
              && 1 <= r.checks <= |replies|
              && r.value == Data(JBool(true))
              && ReportsVisible(replies[r.checks - 1].result)
    ensures r.Interrupted? ==> 1 <= r.checks <= |replies| && SendCancelled(replies[r.checks - 1].result)
    ensures r.TimedOut? ==>
              && 1 <= r.checks <= |replies|
              && r.reason == Custom(VisibleMessage(path))
              && !ReportsVisible(replies[r.checks - 1].result) && !SendCancelled(replies[r.checks - 1].result)
  {
    var polls := VisiblePolls(replies);
    r := WaitFor(start, polls, timeout, JBool(true), Some(VisibleMessage(path)));
    WaitOutcome(start, polls, 0, timeout, JBool(true), Some(VisibleMessage(path)));
    if !r.TraceEnded? {
      forall j | 0 <= j < r.checks - 1
        ensures !ReportsVisible(replies[j].result) && !SendCancelled(replies[j].result)
      {
        assert KeepsPolling(polls[j], start, timeout, JBool(true));
      }
    }
  }

  /** The arguments `press_key` forwards: the key, and the modifiers when given. */
  datatype KeyPress = KeyPress(key: string, modifiers: Option<seq<string>>)

  /**
   * `press_key`: a spec with "+" becomes its last "+"-separated part as the
   * key and all earlier parts, in order, as modifiers; a spec without "+" is
   * the key alone with no modifiers.
   */
  function PressKey(spec: string): (p: KeyPress)
    ensures '+' !in spec ==> p == KeyPress(spec, None)
    ensures '+' in spec ==>
              && p.modifiers.Some? && |p.modifiers.value| >= 1
              && Text.Join(p.modifiers.value + [p.key], '+') == spec
              && '+' !in p.key
              && forall i :: 0 <= i < |p.modifiers.value| ==> '+' !in p.modifiers.value[i]
  {
    if '+' in spec then
      var parts := Text.Split(spec, '+');
      Text.JoinSplit(spec, '+');
      SplitHasTwoParts(spec, '+');
      assert parts[..|parts| - 1] + [parts[|parts| - 1]] == parts;
      KeyPress(parts[|parts| - 1], Some(parts[..|parts| - 1]))
    else KeyPress(spec, None)
  }

  /** A string containing the separator splits into at least two parts. */
  lemma SplitHasTwoParts(s: string, sep: char)
    requires sep in s
    ensures |Text.Split(s, sep)| >= 2
  {
    Text.JoinSplit(s, sep);
  }

  /** `port if port != 9999 else 6007`: the native protocol's port. */
  function DebugPort(port: int): (p: int)
    ensures p != AddonPort
    ensures p == port || (port == AddonPort && p == DebuggerPort)
  {
    if port != AddonPort then port else DebuggerPort
  }

  /** `godot_path or cls._find_godot()`, given what the executable search found. */
  function Executable(godotPath: Option<string>, found: Option<string>): (r: Result<string, GodotError>)
    ensures godotPath.Some? && godotPath.value != "" ==> r == Ok(godotPath.value)
    ensures !(godotPath.Some? && godotPath.value != "") ==>
              r == if found.Some? then Ok(found.value) else Err(ExecutableNotFound)
  {
    if godotPath.Some? && godotPath.value != "" then Ok(godotPath.value)
    else if found.Some? then Ok(found.value)
    else Err(ExecutableNotFound)
  }

  /** The `--resolution` argument: `f"{width}x{height}"`. */
  function ResolutionText(width: int, height: int): string
  {
    Text.IntToDecimal(width) + "x" + Text.IntToDecimal(height)
  }

  /** The `--remote-debug` argument. */
  function RemoteDebugUrl(port: int): string
  {
    "tcp://127.0.0.1:" + Text.IntToDecimal(port)
  }

  function ParseResolution(s: string): Option<(int, int)>
  {
    var parts := Text.Split(s, 'x');
    if |parts| == 2 then
      match (Text.ParseInt(parts[0]), Text.ParseInt(parts[1]))
      case (Some(w), Some(h)) => Some((w, h))
      case _ => None
    else None
  }

  function ParseRemoteDebugUrl(s: string): Option<int>
  {
    var prefix := "tcp://127.0.0.1:";
    if |s| >= |prefix| && s[..|prefix|] == prefix then Text.ParseInt(s[|prefix|..]) else None
  }

  /** Decimal text holds no letter and no separator other than a leading minus sign. */
  lemma DecimalHasNo(i: int, c: char)
    requires c != '-' && !('0' <= c <= '9')
    ensures c !in Text.IntToDecimal(i)
  {
    var s := Text.IntToDecimal(i);
    if i < 0 {
      assert s == [s[0]] + s[1..];
      assert Text.IsDigits(s[1..]);
    }
  }

  /** The resolution argument names exactly the requested width and height. */
  lemma ResolutionRoundTrip(width: int, height: int)
    ensures ParseResolution(ResolutionText(width, height)) == Some((width, height))
  {
    var w, h := Text.IntToDecimal(width), Text.IntToDecimal(height);
    assert ResolutionText(width, height) == w + ['x'] + h;
    DecimalHasNo(width, 'x');
    DecimalHasNo(height, 'x');
    Text.SplitAround(w, h, 'x');
    Text.SplitWithoutSeparator(w, 'x');
    Text.SplitWithoutSeparator(h, 'x');
    Text.IntRoundTrip(width);
    Text.IntRoundTrip(height);
  }

  /** The remote-debug argument names exactly the chosen port. */
  lemma RemoteDebugRoundTrip(port: int)
    ensures ParseRemoteDebugUrl(RemoteDebugUrl(port)) == Some(port)
  {
    var prefix := "tcp://127.0.0.1:";
    assert RemoteDebugUrl(port)[..|prefix|] == prefix;
    assert RemoteDebugUrl(port)[|prefix|..] == Text.IntToDecimal(port);
    Text.IntRoundTrip(port);
  }

  /** The optional flags of a launch command line, in the order `launch` appends them. */
  datatype LaunchFlags = LaunchFlags(headless: bool, resolution: Option<string>, verbose: bool, remoteDebug: Option<string>)

  /** Consumes a leading switch such as `--headless`. */
  function TakeSwitch(args: seq<string>, flag: string): (bool, seq<string>)
  {
    if |args| >= 1 && args[0] == flag then (true, args[1..]) else (false, args)
  }

  /** Consumes a leading option with its value, such as `--resolution 640x480`. */
  function TakeOption(args: seq<string>, flag: string): (Option<string>, seq<string>)
  {
    if |args| >= 2 && args[0] == flag then (Some(args[1]), args[2..]) else (None, args)
  }

  /** Reads the arguments after `--path <project>` back into the flags they set, if they have that shape. */
  function ParseFlags(args: seq<string>): Option<LaunchFlags>
  {
    var (headless, a1) := TakeSwitch(args, "--headless");
    var (resolution, a2) := TakeOption(a1, "--resolution");
    var (verbose, a3) := TakeSwitch(a2, "--verbose");
    var (remote, a4) := TakeOption(a3, "--remote-debug");
    if a4 == [] then Some(LaunchFlags(headless, resolution, verbose, remote)) else None
  }

  function SwitchArgs(on: bool, flag: string): seq<string>
  {
    if on then [flag] else []
  }

  function OptionArgs(value: Option<string>, flag: string): seq<string>
  {
    if value.Some? then [flag, value.value] else []
  }

  /** The arguments that set the given flags, in the order `launch` appends them. */
  function FlagArgs(f: LaunchFlags): seq<string>
  {
    SwitchArgs(f.headless, "--headless") + OptionArgs(f.resolution, "--resolution")
    + SwitchArgs(f.verbose, "--verbose") + OptionArgs(f.remoteDebug, "--remote-debug")
  }

  lemma TakeSwitchArgs(on: bool, flag: string, rest: seq<string>)
    requires rest == [] || rest[0] != flag
    ensures TakeSwitch(SwitchArgs(on, flag) + rest, flag) == (on, rest)
  {
    if on {
      assert (SwitchArgs(on, flag) + rest)[1..] == rest;
    } else {
      assert SwitchArgs(on, flag) + rest == rest;
    }
  }

  lemma TakeOptionArgs(value: Option<string>, flag: string, rest: seq<string>)
    requires rest == [] || rest[0] != flag
    ensures TakeOption(OptionArgs(value, flag) + rest, flag) == (value, rest)
  {
    if value.Some? {
      assert (OptionArgs(value, flag) + rest)[2..] == rest;
    } else {
      assert OptionArgs(value, flag) + rest == rest;
    }
  }

  /** Every combination of flags is read back from the arguments that set it. */
  lemma ParseFlagArgs(f: LaunchFlags)
    ensures ParseFlags(FlagArgs(f)) == Some(f)
  {
    var d := OptionArgs(f.remoteDebug, "--remote-debug");
    var v := SwitchArgs(f.verbose, "--verbose") + d;
    var r := OptionArgs(f.resolution, "--resolution") + v;
    assert FlagArgs(f) == SwitchArgs(f.headless, "--headless") + r;
    TakeSwitchArgs(f.headless, "--headless", r);
    TakeOptionArgs(f.resolution, "--resolution", v);
    TakeSwitchArgs(f.verbose, "--verbose", d);
    assert d == d + [];
    TakeOptionArgs(f.remoteDebug, "--remote-debug", []);
  }

  /**
   * The command-line part of `launch`: `[exe, "--path", project]`, then
   * "--headless", "--resolution" "WxH", "--verbose" and, for the native
   * protocol, "--remote-debug" with the debug port, each only when asked
   * for and in that order. Also returns the port the client will use.
   */
  method LaunchCommand(exe: string, project: string, headless: bool, resolution: Option<(int, int)>,
                       verbose: bool, native: bool, port: int) returns (cmd: seq<string>, debugPort: int)
    ensures |cmd| >= 3 && cmd[..3] == [exe, "--path", project]
    ensures ParseFlags(cmd[3..]) == Some(LaunchFlags(
              headless,
              if resolution.Some? then Some(ResolutionText(resolution.value.0, resolution.value.1)) else None,
              verbose,
              if native then Some(RemoteDebugUrl(DebugPort(port))) else None))
    ensures debugPort == if native then DebugPort(port) else port
  {
    ghost var flags := LaunchFlags(
      headless,
      if resolution.Some? then Some(ResolutionText(resolution.value.0, resolution.value.1)) else None,
      verbose,
      if native then Some(RemoteDebugUrl(DebugPort(port))) else None);
    // The flags are collected after the fixed prefix, in the source's order.
    var args: seq<string> := [];
    if headless {
      args := args + ["--headless"];
    }
    assert args == SwitchArgs(flags.headless, "--headless");
    if resolution.Some? {
      args := args + ["--resolution", ResolutionText(resolution.value.0, resolution.value.1)];
    }
    assert args == SwitchArgs(flags.headless, "--headless") + OptionArgs(flags.resolution, "--resolution");
    if verbose {
      args := args + ["--verbose"];
    }
    assert args == SwitchArgs(flags.headless, "--headless") + OptionArgs(flags.resolution, "--resolution")
                   + SwitchArgs(flags.verbose, "--verbose");
    if native {
      debugPort := if port != AddonPort then port else DebuggerPort;
      args := args + ["--remote-debug", RemoteDebugUrl(debugPort)];
    } else {
      debugPort := port;
    }
    assert args == FlagArgs(flags);
    cmd := [exe, "--path", project] + args;
    assert cmd[3..] == args;
    ParseFlagArgs(flags);
  }

  /** The endpoint a client is created for. */
  datatype Endpoint = AddonSocket(host: string, port: int) | DebuggerSocket(host: string, port: int)

  /** The client `Godot.connect` creates. */
  function ConnectEndpoint(host: string, port: int, native: bool): (e: Endpoint)
    ensures e.host == host
    ensures native <==> e.DebuggerSocket?
    ensures e.port == if native then DebugPort(port) else port
  {
    if native then DebuggerSocket(host, DebugPort(port)) else AddonSocket(host, port)
  }

  /** The client `launch` creates: a local debug server, or the addon client at the default host. */
  function LaunchEndpoint(port: int, native: bool): (e: Endpoint)
    ensures native <==> e.DebuggerSocket?
    ensures e.host == if native then "127.0.0.1" else Client.DefaultHost
    ensures e.port == if native then DebugPort(port) else port
  {
    if native then DebuggerSocket("127.0.0.1", DebugPort(port)) else AddonSocket(Client.DefaultHost, port)
  }

  /**
   * `launch` and `connect` given the same port pick the same port, and for
   * the native protocol the engine is told to connect to the very port the
   * debug server listens on.
   */
  lemma LaunchAndConnectAgree(host: string, port: int, native: bool)
    ensures LaunchEndpoint(port, native).port == ConnectEndpoint(host, port, native).port
    ensures native ==> ParseRemoteDebugUrl(RemoteDebugUrl(DebugPort(port))) == Some(LaunchEndpoint(port, native).port)
  {
    RemoteDebugRoundTrip(DebugPort(port));
  }

  datatype ClickKind = Single | Double | Right

  /** `path_or_x`: a node path (a `str`) or an x coordinate. */
  datatype ClickTarget = NodePath(path: string) | Position(x: real)

  /** The input-simulator call a click is routed to. */
  datatype InputCall = ClickNode(kind: ClickKind, path: string) | ClickAt(kind: ClickKind, x: real, y: real)

  function MissingYMessage(kind: ClickKind): string
  {
    if kind == Single then "Y coordinate required when clicking by position" else "Y coordinate required"
  }

  /**
   * `click`, `double_click` and `right_click`: a node path is clicked as a
   * node (any `y` is ignored); a coordinate needs `y`, and without it the
   * call raises ValueError and nothing is sent.
   */
  function Click(kind: ClickKind, target: ClickTarget, y: Option<real>): (r: Result<InputCall, GodotError>)
    ensures r.Err? <==> target.Position? && y.None?
    ensures r.Err? ==> r.error == CoordinateRequired(MissingYMessage(kind))
    ensures r.Ok? ==> r.value.kind == kind && (r.value.ClickNode? <==> target.NodePath?)
    ensures r.Ok? && target.NodePath? ==> r.value.path == target.path
    ensures r.Ok? && target.Position? ==> r.value.x == target.x && r.value.y == y.value
  {
    match target
    case NodePath(path) => Ok(ClickNode(kind, path))
    case Position(x) =>
      if y.None? then Err(CoordinateRequired(MissingYMessage(kind))) else Ok(ClickAt(kind, x, y.value))
  }
}
