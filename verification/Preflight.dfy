/**
 * The pre-flight check of a converted request: parameter renaming, and prompt
 * plus completion held within the context window.
 */
module Preflight {
  import opened Common
  import opened Json
  import opened Routing
  import opened TokenEstimator

  const MIN_COMPLETION_TOKENS := 100

  /** A field of the wire body: a token limit, or anything else. */
  datatype Field = Limit(tokens: int) | Data(value: Json)

  type Fields = map<string, Field>

  /** The body as the estimator reads it: limits carry no text. */
  function Plain(fields: Fields): Json {
    JObj(map name | name in fields && fields[name].Data? :: fields[name].value)
  }

  function ParamName(param: TokenParam): (name: string)
    ensures param == MaxTokens <==> name == "max_tokens"
    ensures param == MaxCompletionTokens <==> name == "max_completion_tokens"
    ensures param == MaxOutputTokens <==> name == "max_output_tokens"
  {
    match param
    case MaxTokens => "max_tokens"
    case MaxCompletionTokens => "max_completion_tokens"
    case MaxOutputTokens => "max_output_tokens"
  }

  function TokenKey(cfg: ProviderCfg): (key: string)
    ensures cfg.apiFlavor == Responses || cfg.tokenParam == MaxOutputTokens <==> key == "max_output_tokens"
    ensures cfg.apiFlavor == Chat && cfg.tokenParam == MaxTokens <==> key == "max_tokens"
    ensures cfg.apiFlavor == Chat && cfg.tokenParam == MaxCompletionTokens <==> key == "max_completion_tokens"
  {
    if cfg.apiFlavor.Responses? then "max_output_tokens" else ParamName(cfg.tokenParam)
  }

  /** The completion budget a converter asks for. */
  function RequestedTokens(maxTokens: int, cap: int): (tokens: int)
    ensures tokens <= cap && (tokens == cap || (tokens >= 100 && tokens >= maxTokens))
    ensures tokens == cap || tokens == 100 || tokens == maxTokens
    ensures maxTokens <= cap && 100 <= cap ==> tokens == maxTokens || (tokens == 100 && maxTokens < 100)
  {
    var least := if maxTokens > MIN_COMPLETION_TOKENS then maxTokens else MIN_COMPLETION_TOKENS;
    if least < cap then least else cap
  }

  /** What a converter of this flavour writes: its own limit key, and no other. */
  predicate Converted(cfg: ProviderCfg, fields: Fields, requested: int) {
    var key := if cfg.apiFlavor.Responses? then "max_output_tokens" else "max_tokens";
    && key in fields && fields[key] == Limit(requested)
    && (cfg.apiFlavor.Responses? ==> "max_tokens" !in fields)
    && forall name :: name in fields && name != key ==> fields[name].Data?
  }

  function Renamed(cfg: ProviderCfg, fields: Fields): Fields {
    if !cfg.tokenParam.MaxTokens? && "max_tokens" in fields
    then (fields - {"max_tokens"})[ParamName(cfg.tokenParam) := fields["max_tokens"]]
    else fields
  }

  function Without(fields: Fields, names: seq<string>): Fields {
    if names == [] then fields else Without(fields, names[..|names| - 1]) - {names[|names| - 1]}
  }

  datatype Verdict = Proceeds | TooLong(estimate: nat, most: int)

  class WireBody {
    var fields: Fields

    constructor (fields: Fields)
      ensures this.fields == fields
    {
      this.fields := fields;
    }

    method ApplyParamCompat(cfg: ProviderCfg)
      modifies this
      ensures fields == Without(Renamed(cfg, old(fields)), cfg.dropParams)
      ensures cfg.tokenParam == MaxTokens ==>
                forall name :: name in fields <==> name in old(fields) && name !in cfg.dropParams
      ensures cfg.tokenParam != MaxTokens && "max_tokens" in old(fields) ==>
                forall name :: name in fields <==>
                  (name in old(fields) || name == ParamName(cfg.tokenParam)) && name != "max_tokens" && name !in cfg.dropParams
      ensures forall name :: name in fields ==>
                fields[name] == if name in old(fields) && (cfg.tokenParam == MaxTokens || "max_tokens" !in old(fields)
                                                           || name != ParamName(cfg.tokenParam)) then old(fields)[name]
                                else if "max_tokens" in old(fields) then old(fields)["max_tokens"] else fields[name]
    {
      WithoutMeans(Renamed(cfg, fields), cfg.dropParams);
      if !cfg.tokenParam.MaxTokens? && "max_tokens" in fields {
        var limit := fields["max_tokens"];
        fields := fields - {"max_tokens"};
        fields := fields[ParamName(cfg.tokenParam) := limit];
      }
      ghost var renamed := fields;
      var i := 0;
      while i < |cfg.dropParams|
        invariant 0 <= i <= |cfg.dropParams|
        invariant fields == Without(renamed, cfg.dropParams[..i])
      {
        assert cfg.dropParams[..i + 1][..i] == cfg.dropParams[..i];
        fields := fields - {cfg.dropParams[i]};
        i := i + 1;
      }
      assert cfg.dropParams[..i] == cfg.dropParams;
    }

    /** Reject a prompt that leaves too little of the window, otherwise lower the limit to what is left. */
    method EnforceContextWindow(dumps: Dumps, cfg: ProviderCfg, contextWindow: int) returns (verdict: Verdict)
      requires TokenKey(cfg) in fields && fields[TokenKey(cfg)].Limit?
      modifies this
      ensures verdict == Judge(Estimate(dumps, Plain(old(fields))), contextWindow)
      ensures fields == if verdict.Proceeds? then Clamped(dumps, cfg, contextWindow, old(fields)) else old(fields)
      ensures var estimate, key := Estimate(dumps, Plain(old(fields))), TokenKey(cfg);
              var requested, left := old(fields)[key].tokens, contextWindow - 512 - estimate;
              if left < 4096 then verdict == TooLong(estimate, contextWindow - 512 - 4096) && fields == old(fields)
              else verdict == Proceeds && fields == old(fields)[key := Limit(if requested <= left then requested else left)]
    {
      hide Estimate, Plain, TokenKey;
      var budget := contextWindow - CONTEXT_WINDOW_RESERVE_TOKENS;
      var estimate := EstimateRequest(dumps, Plain(fields));
      if estimate + MIN_USEFUL_COMPLETION_TOKENS > budget {
        return TooLong(estimate, budget - MIN_USEFUL_COMPLETION_TOKENS);
      }
      var requested := fields[TokenKey(cfg)].tokens;
      var clamped := if requested < budget - estimate then requested else budget - estimate;
      if clamped != requested {
        fields := fields[TokenKey(cfg) := Limit(clamped)];
      } else {
        SameLimit(fields, TokenKey(cfg));
      }
      verdict := Proceeds;
    }
  }

  lemma {:induction false} WithoutMeans(fields: Fields, names: seq<string>)
    ensures forall name :: name in Without(fields, names) <==> name in fields && name !in names
    ensures forall name :: name in Without(fields, names) ==> Without(fields, names)[name] == fields[name]
  {
    if names != [] {
      WithoutMeans(fields, names[..|names| - 1]);
      assert names == names[..|names| - 1] + [names[|names| - 1]];
    }
  }

  lemma SameLimit(fields: Fields, key: string)
    requires key in fields
    ensures fields[key := fields[key]] == fields
  {
  }

  function Judge(estimate: nat, contextWindow: int): Verdict {
    if estimate + MIN_USEFUL_COMPLETION_TOKENS > contextWindow - CONTEXT_WINDOW_RESERVE_TOKENS
    then TooLong(estimate, contextWindow - CONTEXT_WINDOW_RESERVE_TOKENS - MIN_USEFUL_COMPLETION_TOKENS)
    else Proceeds
  }

  function Clamped(dumps: Dumps, cfg: ProviderCfg, contextWindow: int, fields: Fields): Fields
    requires TokenKey(cfg) in fields && fields[TokenKey(cfg)].Limit?
  {
    var left := contextWindow - CONTEXT_WINDOW_RESERVE_TOKENS - Estimate(dumps, Plain(fields));
    var requested := fields[TokenKey(cfg)].tokens;
    fields[TokenKey(cfg) := Limit(if requested < left then requested else left)]
  }

  // ----- what the checks guarantee

  /** Dropping only what may be dropped, every flavour keeps the limit it asked for under the key that is read. */
  lemma LimitKeyPresent(cfg: ProviderCfg, fields: Fields, requested: int)
    requires ProviderFault(cfg).None? && Converted(cfg, fields, requested)
    ensures var out := Without(Renamed(cfg, fields), cfg.dropParams);
            && TokenKey(cfg) in out && out[TokenKey(cfg)] == Limit(requested)
            && forall name :: name in out && name != TokenKey(cfg) ==> out[name].Data?
  {
    WithoutMeans(Renamed(cfg, fields), cfg.dropParams);
    forall name | name in cfg.dropParams ensures name in DROPPABLE_PARAMS {
      var i :| 0 <= i < |cfg.dropParams| && cfg.dropParams[i] == name;
    }
  }

  /** The limit is no part of what is estimated. */
  lemma LimitIsNotCounted(fields: Fields, key: string, tokens: int)
    requires key in fields && fields[key].Limit?
    ensures Plain(fields[key := Limit(tokens)]) == Plain(fields)
  {
    var after := fields[key := Limit(tokens)];
    assert Plain(after).fields == Plain(fields).fields;
  }

  /**
   * A request that proceeds fits: estimate, completion and reserve are within the window, the
   * completion is what was asked for or at least the smallest useful one, and never more; the
   * rest of the body is as it was, and checking it again changes nothing.
   */
  lemma ProceedingFits(dumps: Dumps, cfg: ProviderCfg, contextWindow: int, fields: Fields)
    requires TokenKey(cfg) in fields && fields[TokenKey(cfg)].Limit?
    ensures var key, after := TokenKey(cfg), Clamped(dumps, cfg, contextWindow, fields);
            && key in after && after[key].Limit?
            && var requested, completion := fields[key].tokens, after[key].tokens;
               Judge(Estimate(dumps, Plain(fields)), contextWindow).Proceeds? ==>
               && Estimate(dumps, Plain(after)) + completion + 512 <= contextWindow
               && completion <= requested
               && (completion == requested || (completion >= 4096 && Estimate(dumps, Plain(after)) + completion + 512 == contextWindow))
               && after == fields[key := Limit(completion)]
               && Judge(Estimate(dumps, Plain(after)), contextWindow).Proceeds?
               && Clamped(dumps, cfg, contextWindow, after) == after
  {
    hide Estimate, Plain, TokenKey;
    var key, after := TokenKey(cfg), Clamped(dumps, cfg, contextWindow, fields);
    LimitIsNotCounted(fields, key, after[key].tokens);
    SameLimit(after, key);
  }

  // ----- together with the routing checks

  /**
   * On every translated route of an accepted configuration that has a window: a prompt
   * estimated at no more than the cap proceeds, and one that also stays within the smallest
   * useful completion keeps the whole completion it asked for.
   */
  lemma AcceptedRouteServes(patterns: Patterns, config: Config, model: string, estimate: nat, maxTokens: int)
    requires Accepted(patterns, config) && ReferencesExist(config)
    ensures var route := Resolve(patterns, config, model);
            route.limits.contextWindow.Some? ==>
              && route.limits.maxTokensLimit.Some?
              && var window, cap := route.limits.contextWindow.value, route.limits.maxTokensLimit.value;
                 && (estimate <= cap ==> Judge(estimate, window).Proceeds?)
                 && (estimate <= 4096 ==> RequestedTokens(maxTokens, cap) <= window - 512 - estimate)
  {
    EveryRouteFits(patterns, config, model);
  }

  /** A request with a message, or an input item, in it. */
  predicate Asks(request: Json) {
    HasObject(FieldOf(request, "messages")) || HasObject(FieldOf(request, "input"))
  }

  predicate HasObject(list: Option<Json>) {
    list.Some? && list.value.JArr? && exists i :: 0 <= i < |list.value.items| && list.value.items[i].JObj?
  }

  ghost predicate ServesSome(dumps: Dumps, contextWindow: int) {
    exists request: Json :: Judge(Estimate(dumps, request), contextWindow).Proceeds?
  }

  ghost predicate ServesAnAsking(dumps: Dumps, contextWindow: int) {
    exists request: Json :: Asks(request) && Judge(Estimate(dumps, request), contextWindow).Proceeds?
  }

  const EMPTY_MESSAGE := JObj(map["role" := JStr("user"), "content" := JStr("")])
  const SHORTEST := WithMessages(EMPTY_REQUEST, "messages", [EMPTY_MESSAGE])
  const SILENT := WithMessages(EMPTY_REQUEST, "messages", [])

  /** Any message costs its overhead, and the shortest costs no more. */
  lemma AskingCosts(dumps: Dumps, request: Json)
    requires Asks(request)
    ensures Estimate(dumps, request) >= MESSAGE_OVERHEAD_TOKENS
  {
    hide OfChatMessage, OfInputItem, OfItems, OfTool, OfInstructions, Counts.Total, Counts.Plus;
    var chat, input := FieldOf(request, "messages"), FieldOf(request, "input");
    if HasObject(chat) {
      ObjectsAreMessages(chat.value.items);
    } else {
      ObjectsAreMessages(input.value.items);
    }
    MessagesAddUp(OfInstructions(FieldOf(request, "instructions")), OfList(chat, OfChatMessage), OfList(input, OfInputItem),
                  OfList(FieldOf(request, "tools"), OfTool(dumps)));
  }

  lemma MessagesAddUp(a: Counts, b: Counts, c: Counts, d: Counts)
    ensures a.Plus(b).Plus(c).Plus(d).Total() >= MESSAGE_OVERHEAD_TOKENS * (b.messages + c.messages)
  {
  }

  lemma {:induction false} ObjectsAreMessages(items: seq<Json>)
    requires exists i :: 0 <= i < |items| && items[i].JObj?
    ensures OfItems(items, OfChatMessage).messages >= 1 && OfItems(items, OfInputItem).messages >= 1
  {
    hide OfContent, OfInputPayload;
    var n := |items| - 1;
    if !items[n].JObj? {
      ObjectsAreMessages(items[..n]);
    }
  }

  lemma ShortestCounts(dumps: Dumps)
    ensures Estimate(dumps, SHORTEST) == MESSAGE_OVERHEAD_TOKENS && Estimate(dumps, SILENT) == 0
  {
    hide OfRequest, OfItems, OfChatMessage, WithMessages;
    AloneCounts(dumps, "messages", [EMPTY_MESSAGE]);
    AloneCounts(dumps, "messages", []);
    FewItems(EMPTY_MESSAGE, CountOf("messages"));
    EmptyMessageCounts(EMPTY_MESSAGE);
  }

  lemma ShortestAsks()
    ensures Asks(SHORTEST)
  {
    assert FieldOf(SHORTEST, "messages") == Some(JArr([EMPTY_MESSAGE]));
    assert [EMPTY_MESSAGE][0].JObj?;
  }

  lemma FewItems(item: Json, count: Json -> Counts)
    ensures OfItems([], count) == NOTHING && OfItems([item], count) == count(item)
  {
    assert [item][..0] == [];
  }

  lemma EmptyMessageCounts(message: Json)
    requires message.JObj? && FieldOf(message, "content") == Some(JStr("")) && FieldOf(message, "tool_calls") == None
    ensures OfChatMessage(message) == NOTHING.(messages := 1)
  {
    hide OfItems, OfToolCall, FieldOf, OfText, Counts.Plus;
    EmptyTextCounts();
    NothingAdds(NOTHING.(messages := 1));
  }

  lemma EmptyTextCounts()
    ensures OfText("") == NOTHING
  {
  }

  /**
   * A window serves some request exactly when it holds the reserve and a useful completion, and
   * some request with a message in it exactly when it also holds the overhead of one.
   */
  lemma ServesSomeIff(dumps: Dumps, contextWindow: int)
    ensures ServesSome(dumps, contextWindow) <==> 512 + 4096 <= contextWindow
    ensures ServesAnAsking(dumps, contextWindow) <==> 512 + 4096 + 4 <= contextWindow
  {
    hide Estimate, Asks;
    forall request: Json | Asks(request) ensures Estimate(dumps, request) >= MESSAGE_OVERHEAD_TOKENS {
      AskingCosts(dumps, request);
    }
    ShortestCounts(dumps);
    ShortestAsks();
    if CONTEXT_WINDOW_RESERVE_TOKENS + MIN_USEFUL_COMPLETION_TOKENS <= contextWindow {
      assert Judge(Estimate(dumps, SILENT), contextWindow).Proceeds?;
    }
    if CONTEXT_WINDOW_RESERVE_TOKENS + MIN_USEFUL_COMPLETION_TOKENS + MESSAGE_OVERHEAD_TOKENS <= contextWindow {
      assert Judge(Estimate(dumps, SHORTEST), contextWindow).Proceeds?;
    }
  }

  /** A provider with this cap and window that passes the checks, when any does. */
  function Windowed(cap: int, contextWindow: int): ProviderCfg {
    ProviderCfg(OpenAiTranslate, Some("KEY"), None, None, [], false, MaxTokens, [], Some(cap), Some(contextWindow), Chat)
  }

  /** A provider the checks accept whose window serves no request at all: its completion cap is negative. */
  lemma NegativeCapServesNothing(dumps: Dumps) returns (cfg: ProviderCfg)
    ensures ProviderFault(cfg).None? && cfg.contextWindow.Some?
    ensures forall request: Json :: Judge(Estimate(dumps, request), cfg.contextWindow.value).TooLong?
  {
    hide Estimate;
    cfg := Windowed(-5000, 1);
  }

  /**
   * When an accepted window can be relied on: every one over a cap serves some request exactly
   * from a cap of -1 on, and some request with a message in it exactly from a cap of 3 on.
   */
  lemma AcceptedCapServesIff(dumps: Dumps, cap: int)
    ensures (forall cfg: ProviderCfg :: ProviderFault(cfg).None? && cfg.contextWindow.Some? && cfg.maxTokensLimit == Some(cap) ==>
              ServesSome(dumps, cfg.contextWindow.value))
            <==> cap >= -1
    ensures (forall cfg: ProviderCfg :: ProviderFault(cfg).None? && cfg.contextWindow.Some? && cfg.maxTokensLimit == Some(cap) ==>
              ServesAnAsking(dumps, cfg.contextWindow.value))
            <==> cap >= 3
  {
    hide ServesSome, ServesAnAsking;
    forall cfg: ProviderCfg | ProviderFault(cfg).None? && cfg.contextWindow.Some? && cfg.maxTokensLimit == Some(cap)
      ensures ServesSome(dumps, cfg.contextWindow.value) <== cap >= -1
      ensures ServesAnAsking(dumps, cfg.contextWindow.value) <== cap >= MESSAGE_OVERHEAD_TOKENS - 1
    {
      ServesSomeIff(dumps, cfg.contextWindow.value);
    }
    var least := Windowed(cap, MinimumContextWindow(cap) + 1);
    assert ProviderFault(least).None?;
    ServesSomeIff(dumps, least.contextWindow.value);
  }
}
