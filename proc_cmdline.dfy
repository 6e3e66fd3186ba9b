/**
 * The kernel command-line parser: the command line is split on whitespace,
 * each token that holds '=' is split at its first '=' into key and value, and
 * the handler registered for the key, if any, updates the parameter context.
 * Handlers run left to right; the first handler error ends the pass.
 */
module ProcCmdline {
  import opened Results
  import opened Text

  /** The key of the debug switch. */
  const NvidiaInitDebugKey := "nvidia.init.debug"

  /** The values held by the parameter context. */
  datatype Params = Params(debug: bool, smiLgcValue: Option<string>)

  /** The context after a handler or a whole pass, with the error that ended it if any. */
  datatype Parse = Parse(params: Params, failure: Option<string>)

  /**
   * A registered handler. `InitDebug` and `SmiLgc` are the two handlers of the
   * program; `Other` stands for any other function of the handler type: it may
   * change the context and may fail.
   */
  datatype Handler =
    | InitDebug
    | SmiLgc
    | Other(run: (string, Params) -> Parse)

  /** The effect of one handler call on the context. */
  function Apply(h: Handler, value: string, p: Params): Parse
  {
    match h
    case InitDebug => Parse(p.(debug := value == "1"), None)
    case SmiLgc => Parse(p.(smiLgcValue := Some(value)), None)
    case Other(run) => run(value, p)
  }

  /** The key and value of a token, if the token holds '='. */
  function KeyValue(token: string): Option<(string, string)>
  {
    SplitOnce(token, '=')
  }

  /** A token that names a registered key. */
  predicate Registered(handlers: map<string, Handler>, token: string)
  {
    KeyValue(token).Some? && KeyValue(token).value.0 in handlers
  }

  /** A pass of the dispatcher over the tokens, starting from `p`. */
  function Dispatch(handlers: map<string, Handler>, tokens: seq<string>, p: Params): Parse
    decreases |tokens|
  {
    if tokens == [] then Parse(p, None)
    else if !Registered(handlers, tokens[0]) then Dispatch(handlers, tokens[1..], p)
    else
      var (key, value) := KeyValue(tokens[0]).value;
      var step := Apply(handlers[key], value, p);
      if step.failure.Some? then step else Dispatch(handlers, tokens[1..], step.params)
  }

  /** The context that the program updates in place. */
  class ParamContext {
    var debug: bool
    var smiLgcValue: Option<string>

    constructor (debug: bool, smiLgcValue: Option<string>)
      ensures this.debug == debug && this.smiLgcValue == smiLgcValue
    {
      this.debug := debug;
      this.smiLgcValue := smiLgcValue;
    }

    function Snapshot(): Params
      reads this
    {
      Params(debug, smiLgcValue)
    }
  }

  /** The debug handler: debug is on exactly when the value is "1". */
  method NvidiaInitDebug(value: string, context: ParamContext) returns (r: Result<(), string>)
    modifies context
    ensures r.Ok?
    ensures context.debug <==> value == "1"
    ensures context.smiLgcValue == old(context.smiLgcValue)
  {
    context.debug := value == "1";
    r := Ok(());
  }

  /** The clock handler: records the value and leaves debug alone. */
  method NvidiaSmiLgc(value: string, context: ParamContext) returns (r: Result<(), string>)
    modifies context
    ensures r.Ok?
    ensures context.smiLgcValue == Some(value)
    ensures context.debug == old(context.debug)
  {
    context.smiLgcValue := Some(value);
    r := Ok(());
  }

  /** Calls a handler on the context. */
  method CallHandler(h: Handler, value: string, context: ParamContext) returns (r: Result<(), string>)
    modifies context
    ensures context.Snapshot() == Apply(h, value, old(context.Snapshot())).params
    ensures r.Err? <==> Apply(h, value, old(context.Snapshot())).failure.Some?
    ensures r.Err? ==> Apply(h, value, old(context.Snapshot())).failure == Some(r.error)
  {
    match h
    case InitDebug =>
      r := NvidiaInitDebug(value, context);
    case SmiLgc =>
      r := NvidiaSmiLgc(value, context);
    case Other(run) =>
      var step := run(value, context.Snapshot());
      context.debug, context.smiLgcValue := step.params.debug, step.params.smiLgcValue;
      r := if step.failure.Some? then Err(step.failure.value) else Ok(());
  }

  datatype CmdlineError = CmdlineUnreadable | HandlerFailed(message: string)

  /**
   * The command line to parse: the one given by the caller, or else the
   * contents of /proc/cmdline (None when that file cannot be read).
   */
  function CmdlineText(cmdline: Option<string>, procCmdline: Option<string>): Option<string>
  {
    match cmdline
    case Some(custom) => Some(custom)
    case None => procCmdline
  }

  /**
   * Parses the command line and applies the handlers to the context. The new
   * context is the one a dispatch pass over the tokens gives, and the result
   * is an error exactly when a handler failed or the file could not be read.
   */
  method ProcessKernelParams(handlers: map<string, Handler>, context: ParamContext,
                             cmdline: Option<string>, procCmdline: Option<string>)
    returns (r: Result<(), CmdlineError>)
    modifies context
    ensures CmdlineText(cmdline, procCmdline).None? ==>
              r == Err(CmdlineUnreadable) && context.Snapshot() == old(context.Snapshot())
    ensures CmdlineText(cmdline, procCmdline).Some? ==>
              var pass := Dispatch(handlers, SplitWhitespace(CmdlineText(cmdline, procCmdline).value),
                                   old(context.Snapshot()));
              && context.Snapshot() == pass.params
              && (r.Err? <==> pass.failure.Some?)
              && (r.Err? ==> r.error == HandlerFailed(pass.failure.value))
  {
    var content;
    match cmdline {
      case Some(custom) =>
        content := custom;
      case None =>
        if procCmdline.None? {
          return Err(CmdlineUnreadable);
        }
        content := procCmdline.value;
    }
    var tokens := SplitWhitespace(content);
    ghost var start := context.Snapshot();
    var i := 0;
    while i < |tokens|
      invariant 0 <= i <= |tokens|
      invariant Dispatch(handlers, tokens, start) == Dispatch(handlers, tokens[i..], context.Snapshot())
    {
      assert tokens[i..][0] == tokens[i] && tokens[i..][1..] == tokens[i + 1..];
      var kv := KeyValue(tokens[i]);
      if kv.Some? && kv.value.0 in handlers {
        var res := CallHandler(handlers[kv.value.0], kv.value.1, context);
        if res.Err? {
          return Err(HandlerFailed(res.error));
        }
      }
      i := i + 1;
    }
    r := Ok(());
  }

  // ----- properties of a dispatch pass -----

  /** A pass that failed is not affected by tokens after it: nothing after the failure runs. */
  lemma {:induction false} FailureStopsDispatch(handlers: map<string, Handler>, before: seq<string>,
                                                after: seq<string>, p: Params)
    requires Dispatch(handlers, before, p).failure.Some?
    ensures Dispatch(handlers, before + after, p) == Dispatch(handlers, before, p)
  {
    assert before != [];
    assert (before + after)[0] == before[0] && (before + after)[1..] == before[1..] + after;
    if Registered(handlers, before[0]) {
      var (key, value) := KeyValue(before[0]).value;
      var step := Apply(handlers[key], value, p);
      if step.failure.None? {
        FailureStopsDispatch(handlers, before[1..], after, step.params);
      }
    } else {
      FailureStopsDispatch(handlers, before[1..], after, p);
    }
  }

  /** Tokens are handled left to right: a pass over two parts is the pass over the second from where the first ended. */
  lemma {:induction false} DispatchInOrder(handlers: map<string, Handler>, before: seq<string>,
                                           after: seq<string>, p: Params)
    requires Dispatch(handlers, before, p).failure.None?
    ensures Dispatch(handlers, before + after, p) ==
            Dispatch(handlers, after, Dispatch(handlers, before, p).params)
  {
    if before == [] {
      assert before + after == after;
    } else {
      assert (before + after)[0] == before[0] && (before + after)[1..] == before[1..] + after;
      if Registered(handlers, before[0]) {
        var (key, value) := KeyValue(before[0]).value;
        DispatchInOrder(handlers, before[1..], after, Apply(handlers[key], value, p).params);
      } else {
        DispatchInOrder(handlers, before[1..], after, p);
      }
    }
  }

  /** The tokens that name a registered key, in order. */
  function RegisteredTokens(handlers: map<string, Handler>, tokens: seq<string>): seq<string>
  {
    if tokens == [] then []
    else if Registered(handlers, tokens[0]) then [tokens[0]] + RegisteredTokens(handlers, tokens[1..])
    else RegisteredTokens(handlers, tokens[1..])
  }

  /** Tokens without '=' and tokens whose key has no handler change nothing. */
  lemma {:induction false} UnregisteredTokensIgnored(handlers: map<string, Handler>, tokens: seq<string>, p: Params)
    ensures Dispatch(handlers, tokens, p) == Dispatch(handlers, RegisteredTokens(handlers, tokens), p)
  {
    if tokens != [] {
      var rest := RegisteredTokens(handlers, tokens[1..]);
      if Registered(handlers, tokens[0]) {
        assert ([tokens[0]] + rest)[0] == tokens[0] && ([tokens[0]] + rest)[1..] == rest;
        var (key, value) := KeyValue(tokens[0]).value;
        UnregisteredTokensIgnored(handlers, tokens[1..], Apply(handlers[key], value, p).params);
      } else {
        UnregisteredTokensIgnored(handlers, tokens[1..], p);
      }
    }
  }

  /** The value of the last token for `key`, searching from the end of the command line. */
  function LastValue(tokens: seq<string>, key: string): Option<string>
  {
    if tokens == [] then None
    else
      var last := tokens[|tokens| - 1];
      if KeyValue(last).Some? && KeyValue(last).value.0 == key then Some(KeyValue(last).value.1)
      else LastValue(tokens[..|tokens| - 1], key)
  }

  /** The handler table of the boot path: only the debug key is registered. */
  function BootHandlers(): map<string, Handler>
  {
    map[NvidiaInitDebugKey := InitDebug]
  }

  /** What a boot-table pass leaves in the context: debug as the last debug token says, the clock value untouched. */
  function BootParams(tokens: seq<string>, p: Params): Params
  {
    match LastValue(tokens, NvidiaInitDebugKey)
    case Some(v) => p.(debug := v == "1")
    case None => p
  }

  /**
   * With the boot table, a pass never fails, the last occurrence of the debug
   * key decides debug, and the clock value stays what it was.
   */
  lemma {:induction false} BootDispatchLastWins(tokens: seq<string>, p: Params)
    ensures Dispatch(BootHandlers(), tokens, p) == Parse(BootParams(tokens, p), None)
  {
    if tokens != [] {
      var init, last := tokens[..|tokens| - 1], tokens[|tokens| - 1];
      assert tokens == init + [last];
      BootDispatchLastWins(init, p);
      DispatchInOrder(BootHandlers(), init, [last], p);
      assert [last][1..] == [];
    }
  }

  // ----- the scenarios of the unit tests -----

  const LgcToken := "nvidia.smi.lgc=1500"

  lemma LgcTokenParts()
    ensures KeyValue(LgcToken) == Some(("nvidia.smi.lgc", "1500"))
  {
    assert '=' !in "nvidia.smi.lgc";
    assert LgcToken == "nvidia.smi.lgc" + ['='] + "1500";
    SplitOnceAtFirst("nvidia.smi.lgc", '=', "1500");
  }

  /** A debug token splits into the debug key and everything after the first '='. */
  lemma DebugTokenParts(v: string)
    ensures KeyValue(NvidiaInitDebugKey + "=" + v) == Some((NvidiaInitDebugKey, v))
  {
    assert '=' !in NvidiaInitDebugKey;
    SplitOnceAtFirst(NvidiaInitDebugKey, '=', v);
  }

  /**
   * With only the debug handler, a debug token between two tokens for another
   * key sets debug from its value and leaves the rest of the context alone.
   */
  lemma DebugBetweenOtherTokens(t0: string, d: string, t2: string, other: string, v: string, p: Params)
    requires KeyValue(d) == Some((NvidiaInitDebugKey, v))
    requires KeyValue(t0).Some? && KeyValue(t0).value.0 == other
    requires KeyValue(t2).Some? && KeyValue(t2).value.0 == other
    requires other != NvidiaInitDebugKey
    ensures Dispatch(BootHandlers(), [t0, d, t2], p) == Parse(p.(debug := v == "1"), None)
  {
    var tokens := [t0, d, t2];
    assert tokens[..2] == [t0, d];
    assert LastValue(tokens, NvidiaInitDebugKey) == Some(v);
    BootDispatchLastWins(tokens, p);
  }

  /** With only the debug handler: "1" between two clock tokens turns debug on and leaves the clock value unset; "0" turns it off. */
  lemma DebugBetweenClockTokens(v: string)
    requires v == "1" || v == "0"
    ensures Dispatch(BootHandlers(), [LgcToken, NvidiaInitDebugKey + "=" + v, LgcToken], Params(false, None))
            == Parse(Params(v == "1", None), None)
  {
    LgcTokenParts();
    DebugTokenParts(v);
    assert |"nvidia.smi.lgc"| != |NvidiaInitDebugKey|;
    DebugBetweenOtherTokens(LgcToken, NvidiaInitDebugKey + "=" + v, LgcToken, "nvidia.smi.lgc", v, Params(false, None));
  }

  /** The command lines of the unit tests, as text, split into the clock token, the debug token and the clock token. */
  lemma TestCommandLineTokens(v: string)
    requires v == "1" || v == "0"
    ensures SplitWhitespace(LgcToken + " " + NvidiaInitDebugKey + "=" + v + " " + LgcToken)
            == [LgcToken, NvidiaInitDebugKey + "=" + v, LgcToken]
  {
    var debugToken := NvidiaInitDebugKey + "=" + v;
    JoinThreeWords(LgcToken, debugToken, LgcToken);
    assert LgcToken + " " + NvidiaInitDebugKey + "=" + v + " " + LgcToken == LgcToken + " " + debugToken + " " + LgcToken;
    assert IsWord(LgcToken);
    assert IsWord(debugToken);
    SplitJoinWords([LgcToken, debugToken, LgcToken]);
  }

  lemma JoinThreeWords(a: string, b: string, c: string)
    ensures JoinWords([a, b, c]) == a + " " + b + " " + c
  {
    var ws := [a, b, c];
    assert ws[1..] == [b, c] && ws[1..][1..] == [c];
    assert JoinWords([c]) == c;
    assert JoinWords([b, c]) == b + " " + c;
    assert a + " " + (b + " " + c) == a + " " + b + " " + c;
  }

  /** The unit tests' command lines, as text, give the same result as their tokens. */
  lemma DebugBetweenClockTokensText(v: string)
    requires v == "1" || v == "0"
    ensures Dispatch(BootHandlers(), SplitWhitespace(LgcToken + " " + NvidiaInitDebugKey + "=" + v + " " + LgcToken),
                     Params(false, None))
            == Parse(Params(v == "1", None), None)
  {
    TestCommandLineTokens(v);
    DebugBetweenClockTokens(v);
  }

  /** An empty debug value turns debug off, whatever debug was before. */
  lemma EmptyDebugValueIsOff(debug: bool)
    ensures Dispatch(BootHandlers(), [LgcToken, NvidiaInitDebugKey + "="], Params(debug, None))
            == Parse(Params(false, None), None)
  {
    LgcTokenParts();
    DebugTokenParts("");
    assert NvidiaInitDebugKey + "=" + "" == NvidiaInitDebugKey + "=";
    BootDispatchLastWins([LgcToken, NvidiaInitDebugKey + "="], Params(debug, None));
  }

  /** The third unit test's command line, as text with its trailing blank, splits into the clock token and the empty debug token. */
  // The blank is a parameter rather than the literal ' ' so that the solver does not unfold the split over literal text.
  lemma EmptyDebugTestCommandLineTokens(blank: char)
    requires blank == ' '
    ensures SplitWhitespace(LgcToken + [blank] + (NvidiaInitDebugKey + "=") + [blank])
            == [LgcToken, NvidiaInitDebugKey + "="]
  {
    assert IsWord(LgcToken);
    assert IsWord(NvidiaInitDebugKey + "=");
    SplitTwoWordsTrailingBlank(LgcToken, NvidiaInitDebugKey + "=", blank);
  }

  /** The third unit test, on its command-line text: the empty debug value leaves debug off. */
  lemma EmptyDebugValueIsOffText()
    ensures Dispatch(BootHandlers(), SplitWhitespace(LgcToken + " " + NvidiaInitDebugKey + "= "), Params(false, None))
            == Parse(Params(false, None), None)
  {
    var blank := ' ';
    assert LgcToken + " " + NvidiaInitDebugKey + "= " == LgcToken + [blank] + (NvidiaInitDebugKey + "=") + [blank];
    EmptyDebugTestCommandLineTokens(blank);
    EmptyDebugValueIsOff(false);
  }
}
