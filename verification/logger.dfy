/**
 * The logging helpers: `log_info`, `log_warning`, `log_debug` and
 * `log_error` compose the message they hand to the application logger;
 * `log_user_action` and `log_security_event` build the `extra` context of a
 * structured record. Each helper's result is the call it makes on the
 * logger, which is itself a sink.
 */
module Logger {

  /** The Python values that reach these helpers as arguments and keyword arguments. */
  datatype Value =
    | NoneValue
    | BoolValue(b: bool)
    | IntValue(i: int)
    | StrValue(s: string)
    | ExcValue(cls: string, msg: string)   // an exception instance

  /** No name occurs twice: Python refuses a call that passes one keyword twice. */
  predicate NamesDistinct(kwargs: seq<(string, Value)>)
  {
    forall i, j :: 0 <= i < j < |kwargs| ==> kwargs[i].0 != kwargs[j].0
  }

  /** Keyword arguments (`**kwargs`), in the order they were passed, each name once. */
  type Kwargs = kwargs: seq<(string, Value)> | NamesDistinct(kwargs) witness []

  datatype Level = Debug | Info | Warning | Error

  /** A call on the application logger: level, message, `extra=` context and `exc_info=`. */
  datatype LogCall = LogCall(level: Level, message: string, extra: map<string, Value>, excInfo: bool)

  const ContextSeparator := " | Context: "
  const ErrorSeparator := " | Error: "

  /** Python truthiness: `None`, `False`, `0` and `''` are false; an exception instance is true. */
  predicate Truthy(v: Value)
  {
    match v
    case NoneValue => false
    case BoolValue(b) => b
    case IntValue(i) => i != 0
    case StrValue(s) => s != ""
    case ExcValue(_, _) => true
  }

  function Digits(n: nat): (r: string)
    ensures |r| > 0 && '0' <= r[0] <= '9'
  {
    var d := ['0', '1', '2', '3', '4', '5', '6', '7', '8', '9'][n % 10];
    if n < 10 then [d] else Digits(n / 10) + [d]
  }

  function IntToString(i: int): (r: string)
    ensures |r| > 0 && (r[0] == '-' <==> i < 0)
  {
    if i < 0 then "-" + Digits(-i) else Digits(i)
  }

  /** `repr(v)`; strings are quoted with single quotes and not escaped. */
  function Repr(v: Value): (r: string)
  {
    match v
    case NoneValue => "None"
    case BoolValue(b) => if b then "True" else "False"
    case IntValue(i) => IntToString(i)
    case StrValue(s) => "'" + s + "'"
    case ExcValue(cls, msg) => cls + "('" + msg + "')"
  }

  /** `str(v)`: a string is itself, an exception is its message. */
  function Str(v: Value): (r: string)
  {
    match v
    case StrValue(s) => s
    case ExcValue(_, msg) => msg
    case _ => Repr(v)
  }

  function Items(kwargs: Kwargs): (r: string)
    ensures r == "" <==> kwargs == []
  {
    if kwargs == [] then ""
    else
      var item := "'" + kwargs[0].0 + "': " + Repr(kwargs[0].1);
      if |kwargs| == 1 then item else item + ", " + Items(kwargs[1..])
  }

  /** `f"{kwargs}"`: the dictionary's repr, `{'key': value, ...}`. */
  function KwargsRepr(kwargs: Kwargs): (r: string)
    ensures |r| >= 2 && r[0] == '{' && r[|r| - 1] == '}'
  {
    "{" + Items(kwargs) + "}"
  }

  /** The keyword arguments as the dictionary `**kwargs` receives. */
  function KwargsMap(kwargs: Kwargs): (r: map<string, Value>)
    ensures kwargs == [] <==> r == map[]
  {
    if kwargs == [] then map[]
    else
      var n := |kwargs| - 1;
      var init: Kwargs := kwargs[..n];
      var m := KwargsMap(init)[kwargs[n].0 := kwargs[n].1];
      assert kwargs[n].0 in m;
      m
  }

  /** The dictionary's keys are exactly the keyword names. */
  lemma {:induction false} KwargsMapKeys(kwargs: Kwargs)
    ensures forall k :: k in KwargsMap(kwargs) <==> exists i :: 0 <= i < |kwargs| && kwargs[i].0 == k
  {
    if kwargs != [] {
      var n := |kwargs| - 1;
      var init := kwargs[..n];
      KwargsMapKeys(init);
      forall k | k in KwargsMap(kwargs)
        ensures exists i :: 0 <= i < |kwargs| && kwargs[i].0 == k
      {
        if k != kwargs[n].0 {
          assert KwargsMap(kwargs) == KwargsMap(init)[kwargs[n].0 := kwargs[n].1];
          assert k in KwargsMap(init);
          var i :| 0 <= i < |init| && init[i].0 == k;
          assert kwargs[i].0 == k;
        }
      }
      forall k, i | 0 <= i < |kwargs| && kwargs[i].0 == k
        ensures k in KwargsMap(kwargs)
      {
        if i < n {
          assert init[i].0 == k;
        }
      }
    }
  }

  /** Each keyword name is bound to the value passed with it. */
  lemma {:induction false} KwargsMapBinds(kwargs: Kwargs, i: int)
    requires 0 <= i < |kwargs|
    ensures kwargs[i].0 in KwargsMap(kwargs) && KwargsMap(kwargs)[kwargs[i].0] == kwargs[i].1
  {
    var n := |kwargs| - 1;
    if i < n {
      var init: Kwargs := kwargs[..n];
      assert init[i] == kwargs[i];
      KwargsMapBinds(init, i);
    }
  }

  /**
   * The step the four message helpers share, `if kwargs: message = f"{message} | Context: {kwargs}"`:
   * the message itself when there are no keyword arguments.
   */
  function WithContext(message: string, kwargs: Kwargs): (r: string)
    ensures |message| <= |r| && r[..|message|] == message
    ensures r == message <==> kwargs == []
    ensures kwargs != [] ==> r[|message|..] == ContextSeparator + KwargsRepr(kwargs)
  {
    if kwargs != [] then
      var suffix := ContextSeparator + KwargsRepr(kwargs);
      assert |suffix| > 0;
      message + suffix
    else message
  }

  /** `log_info`. */
  method LogInfo(message: string, kwargs: Kwargs) returns (call: LogCall)
    ensures call.level == Info && call.extra == map[] && !call.excInfo
    ensures call.message == message <==> kwargs == []
    ensures kwargs != [] ==> call.message == message + ContextSeparator + KwargsRepr(kwargs)
  {
    var msg := WithContext(message, kwargs);
    call := LogCall(Info, msg, map[], false);
  }

  /** `log_warning`. */
  method LogWarning(message: string, kwargs: Kwargs) returns (call: LogCall)
    ensures call.level == Warning && call.extra == map[] && !call.excInfo
    ensures call.message == message <==> kwargs == []
    ensures kwargs != [] ==> call.message == message + ContextSeparator + KwargsRepr(kwargs)
  {
    var msg := WithContext(message, kwargs);
    call := LogCall(Warning, msg, map[], false);
  }

  /** `log_debug`. */
  method LogDebug(message: string, kwargs: Kwargs) returns (call: LogCall)
    ensures call.level == Debug && call.extra == map[] && !call.excInfo
    ensures call.message == message <==> kwargs == []
    ensures kwargs != [] ==> call.message == message + ContextSeparator + KwargsRepr(kwargs)
  {
    var msg := WithContext(message, kwargs);
    call := LogCall(Debug, msg, map[], false);
  }

  /**
   * `log_error`: the error text comes before the context, and only for a
   * truthy error; the traceback is requested for any error that is not
   * `None`, falsy or not.
   */
  method LogError(message: string, error: Value, kwargs: Kwargs) returns (call: LogCall)
    ensures call.level == Error && call.extra == map[]
    ensures call.excInfo <==> error != NoneValue
    ensures Truthy(error) ==> call.message == WithContext(message + ErrorSeparator + Str(error), kwargs)
    ensures !Truthy(error) ==> call.message == WithContext(message, kwargs)
  {
    var msg := message;
    if Truthy(error) {
      msg := msg + ErrorSeparator + Str(error);
    }
    msg := WithContext(msg, kwargs);
    call := LogCall(Error, msg, map[], error != NoneValue);
  }

  /**
   * `log_user_action`: an info record whose context holds the action, the
   * user id when it is truthy, and every keyword argument. No keyword can be
   * named after a parameter, so none of them replaces the action or the id.
   */
  method LogUserAction(action: string, userId: Value, kwargs: Kwargs) returns (call: LogCall)
    requires "action" !in KwargsMap(kwargs) && "user_id" !in KwargsMap(kwargs)
    ensures call.level == Info && call.message == "User action: " + action && !call.excInfo
    ensures call.extra.Keys == {"action"} + (if Truthy(userId) then {"user_id"} else {}) + KwargsMap(kwargs).Keys
    ensures forall k :: k in KwargsMap(kwargs) ==> call.extra[k] == KwargsMap(kwargs)[k]
    ensures call.extra["action"] == StrValue(action)
    ensures Truthy(userId) ==> call.extra["user_id"] == userId
  {
    var context := map["action" := StrValue(action)];
    if Truthy(userId) {
      context := context["user_id" := userId];
    }
    context := context + KwargsMap(kwargs);
    call := LogCall(Info, "User action: " + action, context, false);
  }

  /**
   * `log_security_event`: a warning record whose context starts with the
   * event and the `security_event` flag, adds the user id and the address
   * when they are truthy, and then every keyword argument. Only the flag is
   * not a parameter, so a keyword can replace it and nothing else.
   */
  method LogSecurityEvent(event: string, userId: Value, ipAddress: Value, kwargs: Kwargs) returns (call: LogCall)
    requires "event" !in KwargsMap(kwargs) && "user_id" !in KwargsMap(kwargs) && "ip_address" !in KwargsMap(kwargs)
    ensures call.level == Warning && call.message == "Security event: " + event && !call.excInfo
    ensures call.extra.Keys ==
              {"event", "security_event"}
              + (if Truthy(userId) then {"user_id"} else {})
              + (if Truthy(ipAddress) then {"ip_address"} else {})
              + KwargsMap(kwargs).Keys
    ensures forall k :: k in KwargsMap(kwargs) ==> call.extra[k] == KwargsMap(kwargs)[k]
    ensures call.extra["event"] == StrValue(event)
    ensures "security_event" !in KwargsMap(kwargs) ==> call.extra["security_event"] == BoolValue(true)
    ensures Truthy(userId) ==> call.extra["user_id"] == userId
    ensures Truthy(ipAddress) ==> call.extra["ip_address"] == ipAddress
  {
    var context := map["event" := StrValue(event), "security_event" := BoolValue(true)];
    if Truthy(userId) {
      context := context["user_id" := userId];
    }
    if Truthy(ipAddress) {
      context := context["ip_address" := ipAddress];
    }
    assert context["event"] == StrValue(event);
    assert Truthy(userId) ==> context["user_id"] == userId;
    context := context + KwargsMap(kwargs);
    call := LogCall(Warning, "Security event: " + event, context, false);
  }
}
