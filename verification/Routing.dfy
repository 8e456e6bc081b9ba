/**
 * The routing table: which rule a model id lands on, under which limits, and
 * the checks a configuration passes before the router starts.
 *
 * `Patterns` stands for the regular expression engine.
 */
module Routing {
  import opened Common

  const CONTEXT_WINDOW_RESERVE_TOKENS := 512
  const MIN_USEFUL_COMPLETION_TOKENS := 4096
  const DROPPABLE_PARAMS := {"temperature", "top_p", "stop"}

  datatype ProviderType = Passthrough | OpenAiTranslate
  datatype ApiFlavor = Chat | Responses
  datatype AuthHeader = Bearer | XApiKey
  datatype TokenParam = MaxTokens | MaxCompletionTokens | MaxOutputTokens

  datatype Patterns = Patterns(compiles: string -> bool, search: (string, string) -> bool)

  datatype MatchRule = Exact(value: string) | Prefix(value: string) | Contains(value: string) | Regex(value: string)

  datatype Rule = Rule(
    match_: MatchRule,
    provider: string,
    upstreamModel: Option<string>,
    maxTokensLimit: Option<int>,
    contextWindow: Option<int>,
    clientModels: seq<string>)

  /** One provider; what is None was not written into the configuration. Headers are kept by name. */
  datatype ProviderCfg = ProviderCfg(
    kind: ProviderType,
    apiKeyEnv: Option<string>,
    forwardClientAuth: Option<bool>,
    authHeader: Option<AuthHeader>,
    extraHeaders: seq<string>,
    foldToolAdditions: bool,
    tokenParam: TokenParam,
    dropParams: seq<string>,
    maxTokensLimit: Option<int>,
    contextWindow: Option<int>,
    apiFlavor: ApiFlavor)

  datatype Config = Config(providers: map<string, ProviderCfg>, rules: seq<Rule>, defaultProvider: string)

  datatype RouteLimits = RouteLimits(maxTokensLimit: Option<int>, contextWindow: Option<int>)

  datatype Decision = Decision(provider: string, upstreamModel: Option<string>, limits: RouteLimits)

  // ----- matching and resolving

  predicate IsIn(part: string, text: string) {
    part <= text || (text != "" && IsIn(part, text[1..]))
  }

  predicate MatchModel(patterns: Patterns, rule: MatchRule, model: string) {
    match rule
    case Exact(value) => model == value
    case Prefix(value) => value <= model
    case Contains(value) => IsIn(value, model)
    case Regex(value) => patterns.search(value, model)
  }

  /** The first rule that takes the model; the number of rules when none does. */
  function FirstMatch(patterns: Patterns, rules: seq<Rule>, model: string): (r: nat)
    ensures r <= |rules| && (r < |rules| ==> MatchModel(patterns, rules[r].match_, model))
    ensures forall i :: 0 <= i < r ==> !MatchModel(patterns, rules[i].match_, model)
  {
    if rules == [] then 0
    else if MatchModel(patterns, rules[0].match_, model) then 0
    else 1 + FirstMatch(patterns, rules[1..], model)
  }

  function ResolveLimits(provider: ProviderCfg, rule: Option<Rule>): RouteLimits {
    if rule.None? then RouteLimits(provider.maxTokensLimit, provider.contextWindow)
    else RouteLimits(if rule.value.maxTokensLimit.None? then provider.maxTokensLimit else rule.value.maxTokensLimit,
                     if rule.value.contextWindow.None? then provider.contextWindow else rule.value.contextWindow)
  }

  predicate ReferencesExist(config: Config) {
    config.defaultProvider in config.providers && forall i :: 0 <= i < |config.rules| ==> config.rules[i].provider in config.providers
  }

  function Resolve(patterns: Patterns, config: Config, model: string): Decision
    requires ReferencesExist(config)
  {
    var i := FirstMatch(patterns, config.rules, model);
    if i < |config.rules| then
      var rule := config.rules[i];
      Decision(rule.provider, rule.upstreamModel, ResolveLimits(config.providers[rule.provider], Some(rule)))
    else Decision(config.defaultProvider, None, ResolveLimits(config.providers[config.defaultProvider], None))
  }

  function AdvertisedModelIds(rule: Rule): (ids: seq<string>)
    ensures rule.clientModels != [] ==> ids == rule.clientModels
    ensures rule.clientModels == [] && rule.match_.Exact? ==> |ids| == 1 && rule.match_ == Exact(ids[0])
    ensures rule.clientModels == [] && (rule.match_.Prefix? || rule.match_.Contains? || rule.match_.Regex?) ==> |ids| == 0
  {
    if rule.clientModels != [] then rule.clientModels
    else if rule.match_.Exact? then [rule.match_.value]
    else []
  }

  function MinimumContextWindow(maxTokensLimit: int): int {
    maxTokensLimit + CONTEXT_WINDOW_RESERVE_TOKENS + MIN_USEFUL_COMPLETION_TOKENS
  }

  predicate WindowTooSmall(limits: RouteLimits) {
    limits.contextWindow.Some? && limits.maxTokensLimit.Some?
    && limits.contextWindow.value <= MinimumContextWindow(limits.maxTokensLimit.value)
  }

  // ----- checking one provider

  datatype ProviderError = ForbiddenDrop | FlavorNeedsTranslate | LimitMissing | WindowWithoutTranslate | WindowSmall
    | AuthWithoutPassthrough | OwnKeyMissing | OwnKeyIgnored | FoldWithoutPassthrough | FoldForwarded
    | HeaderWithoutPassthrough | HeaderIgnored | HeaderOverridesAuth

  /** Whether the client's own credentials go on to the upstream; they do unless it is said otherwise. */
  predicate ForwardsClientAuth(cfg: ProviderCfg) {
    cfg.forwardClientAuth.GetOr(true)
  }

  predicate HasOwnKey(cfg: ProviderCfg) {
    cfg.apiKeyEnv.GetOr("") != ""
  }

  /** The Kelvin sign is the one character outside ASCII whose lower case is an ASCII letter by itself. */
  function LowerChar(c: char): char {
    if 'A' <= c <= 'Z' then (c as int - 'A' as int + 'a' as int) as char
    else if c == '\U{212A}' then 'k'
    else c
  }

  function Lower(name: string): string {
    seq(|name|, i requires 0 <= i < |name| => LowerChar(name[i]))
  }

  predicate NamesAuth(header: string) {
    Lower(header) in {"authorization", "x-api-key"}
  }

  function AuthFault(cfg: ProviderCfg): Option<ProviderError> {
    if cfg.kind.OpenAiTranslate? then (if cfg.forwardClientAuth.Some? then Some(AuthWithoutPassthrough) else None)
    else if !ForwardsClientAuth(cfg) && !HasOwnKey(cfg) then Some(OwnKeyMissing)
    else if ForwardsClientAuth(cfg) && HasOwnKey(cfg) then Some(OwnKeyIgnored)
    else None
  }

  function FoldFault(cfg: ProviderCfg): Option<ProviderError> {
    if !cfg.foldToolAdditions then None
    else if cfg.kind.OpenAiTranslate? then Some(FoldWithoutPassthrough)
    else if ForwardsClientAuth(cfg) then Some(FoldForwarded)
    else None
  }

  function HeaderFault(cfg: ProviderCfg): Option<ProviderError> {
    if cfg.authHeader.Some? && cfg.kind.OpenAiTranslate? then Some(HeaderWithoutPassthrough)
    else if cfg.authHeader.Some? && ForwardsClientAuth(cfg) then Some(HeaderIgnored)
    else if exists i :: 0 <= i < |cfg.extraHeaders| && NamesAuth(cfg.extraHeaders[i]) then Some(HeaderOverridesAuth)
    else None
  }

  function LimitsFault(cfg: ProviderCfg): Option<ProviderError> {
    if exists i :: 0 <= i < |cfg.dropParams| && cfg.dropParams[i] !in DROPPABLE_PARAMS then Some(ForbiddenDrop)
    else if cfg.apiFlavor.Responses? && cfg.kind.Passthrough? then Some(FlavorNeedsTranslate)
    else if cfg.kind.OpenAiTranslate? && cfg.maxTokensLimit.None? then Some(LimitMissing)
    else if cfg.contextWindow.Some? && cfg.kind.Passthrough? then Some(WindowWithoutTranslate)
    else if WindowTooSmall(RouteLimits(cfg.maxTokensLimit, cfg.contextWindow)) then Some(WindowSmall)
    else None
  }

  /** The first of the checks of one provider that fails. */
  function ProviderFault(cfg: ProviderCfg): Option<ProviderError> {
    if LimitsFault(cfg).Some? then LimitsFault(cfg)
    else if AuthFault(cfg).Some? then AuthFault(cfg)
    else if FoldFault(cfg).Some? then FoldFault(cfg)
    else HeaderFault(cfg)
  }

  // ----- checking the table

  datatype ConfigError =
    | BadProvider(name: string, fault: ProviderError)
    | KeyMissing(name: string)
    | UnknownProvider(provider: string)
    | BadRegex(position: nat)
    | UpstreamModelOnPassthrough(position: nat)
    | UnsafeDefault
    | OverrideOnPassthrough(position: nat)
    | RuleWindowTooSmall(position: nat)
    | ListedTwice(model: string, first: nat, second: nat)
    | NotAccepted(model: string, position: nat)
    | Captured(model: string, position: nat, shadow: nat)

  predicate RuleReferenceOk(patterns: Patterns, config: Config, rule: Rule) {
    && rule.provider in config.providers
    && (rule.match_.Regex? ==> patterns.compiles(rule.match_.value))
    && (rule.upstreamModel.Some? ==> config.providers[rule.provider].kind.OpenAiTranslate?)
  }

  predicate ReferencesOk(patterns: Patterns, config: Config) {
    && (forall name :: name in config.providers && config.providers[name].kind.OpenAiTranslate? ==>
          HasOwnKey(config.providers[name]))
    && (forall i :: 0 <= i < |config.rules| ==> RuleReferenceOk(patterns, config, config.rules[i]))
    && config.defaultProvider in config.providers
    && config.providers[config.defaultProvider].kind.Passthrough?
    && ForwardsClientAuth(config.providers[config.defaultProvider])
  }

  predicate RuleLimitsOk(config: Config, rule: Rule) {
    rule.provider in config.providers &&
    var provider := config.providers[rule.provider];
    && (rule.maxTokensLimit.Some? || rule.contextWindow.Some? ==> provider.kind.OpenAiTranslate?)
    && !WindowTooSmall(ResolveLimits(provider, Some(rule)))
  }

  /** An id is its rule's own: the rule takes it, and no earlier rule does. */
  predicate LandsOn(patterns: Patterns, rules: seq<Rule>, position: nat, model: string) {
    position < |rules| && MatchModel(patterns, rules[position].match_, model)
    && forall earlier :: 0 <= earlier < position ==> !MatchModel(patterns, rules[earlier].match_, model)
  }

  /** All ids on offer, in rule order. */
  function Offered(rules: seq<Rule>): seq<string> {
    if rules == [] then [] else Offered(rules[..|rules| - 1]) + AdvertisedModelIds(rules[|rules| - 1])
  }

  predicate NoRepeats(ids: seq<string>) {
    forall i, j :: 0 <= i < j < |ids| ==> ids[i] != ids[j]
  }

  predicate IdsLand(patterns: Patterns, rules: seq<Rule>, position: nat, count: nat) {
    position < |rules| && count <= |AdvertisedModelIds(rules[position])|
    && forall k :: 0 <= k < count ==> LandsOn(patterns, rules, position, AdvertisedModelIds(rules[position])[k])
  }

  predicate ClientModelsOk(patterns: Patterns, rules: seq<Rule>) {
    && NoRepeats(Offered(rules))
    && forall p :: 0 <= p < |rules| ==> IdsLand(patterns, rules, p, |AdvertisedModelIds(rules[p])|)
  }

  /** What the error says is so. */
  predicate TrueOf(patterns: Patterns, rules: seq<Rule>, error: ConfigError) {
    match error
    case ListedTwice(model, first, second) =>
      && first <= second < |rules|
      && model in AdvertisedModelIds(rules[first]) && model in AdvertisedModelIds(rules[second])
    case NotAccepted(model, position) =>
      position < |rules| && model in AdvertisedModelIds(rules[position]) && !MatchModel(patterns, rules[position].match_, model)
    case Captured(model, position, shadow) =>
      && shadow < position < |rules| && model in AdvertisedModelIds(rules[position])
      && MatchModel(patterns, rules[shadow].match_, model)
    case _ => false
  }

  /** The ids seen so far, each with the rule that owns it. */
  ghost predicate Owners(rules: seq<Rule>, ownerOf: map<string, nat>, position: nat, count: nat) {
    && position < |rules| && count <= |AdvertisedModelIds(rules[position])|
    && NoRepeats(Offered(rules[..position]) + AdvertisedModelIds(rules[position])[..count])
    && (forall model :: model in ownerOf <==> model in Offered(rules[..position]) + AdvertisedModelIds(rules[position])[..count])
    && (forall model :: model in ownerOf ==> ownerOf[model] <= position && model in AdvertisedModelIds(rules[ownerOf[model]]))
  }

  lemma OfferedPush(rules: seq<Rule>, position: nat)
    requires position < |rules|
    ensures Offered(rules[..position + 1]) == Offered(rules[..position]) + AdvertisedModelIds(rules[position])
  {
    assert rules[..position + 1][..position] == rules[..position];
  }

  lemma {:induction false} OfferedPrefix(rules: seq<Rule>, position: nat)
    requires position <= |rules|
    ensures Offered(rules[..position]) <= Offered(rules)
    decreases |rules| - position
  {
    if position == |rules| {
      assert rules[..position] == rules;
    } else {
      OfferedPush(rules, position);
      OfferedPrefix(rules, position + 1);
    }
  }

  /** An id seen before is on offer twice. */
  lemma SeenBefore(rules: seq<Rule>, position: nat, k: nat)
    requires position < |rules| && k < |AdvertisedModelIds(rules[position])|
    requires AdvertisedModelIds(rules[position])[k] in Offered(rules[..position]) + AdvertisedModelIds(rules[position])[..k]
    ensures !NoRepeats(Offered(rules))
  {
    var ids := AdvertisedModelIds(rules[position]);
    var before := Offered(rules[..position]) + ids[..k];
    var j :| 0 <= j < |before| && before[j] == ids[k];
    OfferedPush(rules, position);
    OfferedPrefix(rules, position + 1);
    var upTo := Offered(rules[..position]) + ids;
    assert upTo[j] == before[j] && upTo[|before|] == ids[k];
    assert Offered(rules)[j] == Offered(rules)[|before|];
  }

  lemma OwnersFirst(rules: seq<Rule>)
    ensures NoRepeats(Offered(rules[..0])) && (rules != [] ==> Owners(rules, map[], 0, 0))
  {
    if rules != [] {
      assert Offered(rules[..0]) + AdvertisedModelIds(rules[0])[..0] == [];
    }
  }

  lemma OwnersPush(rules: seq<Rule>, ownerOf: map<string, nat>, position: nat, k: nat)
    requires Owners(rules, ownerOf, position, k) && k < |AdvertisedModelIds(rules[position])|
    requires AdvertisedModelIds(rules[position])[k] !in ownerOf
    ensures Owners(rules, ownerOf[AdvertisedModelIds(rules[position])[k] := position], position, k + 1)
  {
    var ids := AdvertisedModelIds(rules[position]);
    var before := Offered(rules[..position]) + ids[..k];
    assert Offered(rules[..position]) + ids[..k + 1] == before + [ids[k]];
  }

  lemma OwnersNext(rules: seq<Rule>, ownerOf: map<string, nat>, position: nat)
    requires position < |rules| && Owners(rules, ownerOf, position, |AdvertisedModelIds(rules[position])|)
    ensures NoRepeats(Offered(rules[..position + 1]))
    ensures position + 1 < |rules| ==> Owners(rules, ownerOf, position + 1, 0)
  {
    var ids := AdvertisedModelIds(rules[position]);
    assert ids[..|ids|] == ids;
    OfferedPush(rules, position);
    if position + 1 < |rules| {
      var after := Offered(rules[..position + 1]);
      assert after + AdvertisedModelIds(rules[position + 1])[..0] == after;
    }
  }

  /** The ids of one rule, against those of the rules before. */
  method CheckRule(patterns: Patterns, rules: seq<Rule>, position: nat, before: map<string, nat>)
    returns (error: Option<ConfigError>, ownerOf: map<string, nat>)
    requires position < |rules| && Owners(rules, before, position, 0)
    ensures error.None? ==>
              && Owners(rules, ownerOf, position, |AdvertisedModelIds(rules[position])|)
              && IdsLand(patterns, rules, position, |AdvertisedModelIds(rules[position])|)
    ensures error.Some? ==> TrueOf(patterns, rules, error.value) && !ClientModelsOk(patterns, rules)
  {
    ownerOf := before;
    var ids := AdvertisedModelIds(rules[position]);
    var k := 0;
    while k < |ids|
      invariant 0 <= k <= |ids| && Owners(rules, ownerOf, position, k) && IdsLand(patterns, rules, position, k)
    {
      var model := ids[k];
      if model in ownerOf {
        SeenBefore(rules, position, k);
        return Some(ListedTwice(model, ownerOf[model], position)), ownerOf;
      }
      OwnersPush(rules, ownerOf, position, k);
      ownerOf := ownerOf[model := position];
      if !MatchModel(patterns, rules[position].match_, model) {
        assert !LandsOn(patterns, rules, position, model);
        return Some(NotAccepted(model, position)), ownerOf;
      }
      var shadow := FirstMatch(patterns, rules[..position], model);
      if shadow < position {
        assert !LandsOn(patterns, rules, position, model);
        return Some(Captured(model, position, shadow)), ownerOf;
      }
      Unshadowed(patterns, rules, position, model);
      k := k + 1;
    }
    error := None;
  }

  lemma Unshadowed(patterns: Patterns, rules: seq<Rule>, position: nat, model: string)
    requires position < |rules| && FirstMatch(patterns, rules[..position], model) == position
    requires MatchModel(patterns, rules[position].match_, model)
    ensures LandsOn(patterns, rules, position, model)
  {
    forall earlier | 0 <= earlier < position ensures !MatchModel(patterns, rules[earlier].match_, model) {
      assert rules[..position][earlier] == rules[earlier];
    }
  }

  method ValidateClientModels(patterns: Patterns, rules: seq<Rule>) returns (error: Option<ConfigError>)
    ensures error.None? <==> ClientModelsOk(patterns, rules)
    ensures error.Some? ==> TrueOf(patterns, rules, error.value)
  {
    hide Owners, IdsLand, NoRepeats, Offered, TrueOf;
    var ownerOf: map<string, nat> := map[];
    var position := 0;
    OwnersFirst(rules);
    while position < |rules|
      invariant 0 <= position <= |rules|
      invariant position < |rules| ==> Owners(rules, ownerOf, position, 0)
      invariant NoRepeats(Offered(rules[..position]))
      invariant forall p :: 0 <= p < position ==> IdsLand(patterns, rules, p, |AdvertisedModelIds(rules[p])|)
    {
      error, ownerOf := CheckRule(patterns, rules, position, ownerOf);
      if error.Some? {
        return;
      }
      OwnersNext(rules, ownerOf, position);
      position := position + 1;
    }
    assert rules[..position] == rules;
    error := None;
  }

  /** The limit overrides, rule by rule. */
  method ValidateRuleLimits(config: Config) returns (error: Option<ConfigError>)
    requires ReferencesExist(config)
    ensures error.Some? ==> forall patterns :: FaultAt(patterns, config, error.value)
    ensures error.None? <==> forall i :: 0 <= i < |config.rules| ==> RuleLimitsOk(config, config.rules[i])
    ensures error.Some? ==> (error.value.OverrideOnPassthrough? || error.value.RuleWindowTooSmall?)
                            && error.value.position < |config.rules|
                            && !RuleLimitsOk(config, config.rules[error.value.position])
  {
    var position := 0;
    while position < |config.rules|
      invariant 0 <= position <= |config.rules|
      invariant forall i :: 0 <= i < position ==> RuleLimitsOk(config, config.rules[i])
    {
      var rule := config.rules[position];
      var provider := config.providers[rule.provider];
      if (rule.maxTokensLimit.Some? || rule.contextWindow.Some?) && provider.kind.Passthrough? {
        return Some(OverrideOnPassthrough(position));
      }
      if WindowTooSmall(ResolveLimits(provider, Some(rule))) {
        return Some(RuleWindowTooSmall(position));
      }
      position := position + 1;
    }
    error := None;
  }

  /** What an error about a provider or a rule says is so. */
  predicate FaultAt(patterns: Patterns, config: Config, error: ConfigError) {
    match error
    case BadProvider(name, fault) => name in config.providers && ProviderFault(config.providers[name]) == Some(fault)
    case KeyMissing(name) =>
      name in config.providers && config.providers[name].kind == OpenAiTranslate && config.providers[name].apiKeyEnv in {None, Some("")}
    case UnknownProvider(provider) => provider !in config.providers
    case BadRegex(position) =>
      && position < |config.rules| && config.rules[position].match_.Regex? && !patterns.compiles(config.rules[position].match_.value)
    case UpstreamModelOnPassthrough(position) =>
      && position < |config.rules| && config.rules[position].upstreamModel != None && config.rules[position].provider in config.providers
      && config.providers[config.rules[position].provider].kind == Passthrough
    case UnsafeDefault =>
      && config.defaultProvider in config.providers
      && (config.providers[config.defaultProvider].kind != Passthrough
          || config.providers[config.defaultProvider].forwardClientAuth == Some(false))
    case OverrideOnPassthrough(position) =>
      && position < |config.rules| && config.rules[position].provider in config.providers
      && config.providers[config.rules[position].provider].kind == Passthrough
      && (config.rules[position].maxTokensLimit != None || config.rules[position].contextWindow != None)
    case RuleWindowTooSmall(position) =>
      && position < |config.rules| && config.rules[position].provider in config.providers
      && WindowTooSmall(ResolveLimits(config.providers[config.rules[position].provider], Some(config.rules[position])))
    case _ => TrueOf(patterns, config.rules, error)
  }

  /** The references of the rules, in order. */
  method ValidateRuleReferences(patterns: Patterns, config: Config) returns (error: Option<ConfigError>)
    ensures error.Some? ==> FaultAt(patterns, config, error.value)
    ensures error.None? <==> forall i :: 0 <= i < |config.rules| ==> RuleReferenceOk(patterns, config, config.rules[i])
  {
    var position := 0;
    while position < |config.rules|
      invariant 0 <= position <= |config.rules|
      invariant forall i :: 0 <= i < position ==> RuleReferenceOk(patterns, config, config.rules[i])
    {
      var rule := config.rules[position];
      if rule.provider !in config.providers {
        return Some(UnknownProvider(rule.provider));
      }
      if rule.match_.Regex? && !patterns.compiles(rule.match_.value) {
        return Some(BadRegex(position));
      }
      if rule.upstreamModel.Some? && config.providers[rule.provider].kind.Passthrough? {
        return Some(UpstreamModelOnPassthrough(position));
      }
      position := position + 1;
    }
    error := None;
  }

  /** A configuration the router starts with. */
  ghost predicate Accepted(patterns: Patterns, config: Config) {
    && (forall name :: name in config.providers ==> ProviderFault(config.providers[name]).None?)
    && ReferencesOk(patterns, config)
    && (forall i :: 0 <= i < |config.rules| ==> RuleLimitsOk(config, config.rules[i]))
    && ClientModelsOk(patterns, config.rules)
  }

  predicate KeyMissingFor(config: Config, name: string) {
    name in config.providers && config.providers[name].kind.OpenAiTranslate?
    && !HasOwnKey(config.providers[name])
  }

  /** All checks, in the order they are made. */
  method Validate(patterns: Patterns, config: Config) returns (error: Option<ConfigError>)
    ensures error.None? <==> Accepted(patterns, config)
    ensures error.Some? ==> FaultAt(patterns, config, error.value)
  {
    if name :| name in config.providers && ProviderFault(config.providers[name]).Some? {
      return Some(BadProvider(name, ProviderFault(config.providers[name]).value));
    }
    if name :| name in config.providers && KeyMissingFor(config, name) {
      return Some(KeyMissing(name));
    }
    error := ValidateRuleReferences(patterns, config);
    if error.Some? {
      return;
    }
    if config.defaultProvider !in config.providers {
      return Some(UnknownProvider(config.defaultProvider));
    }
    var fallback := config.providers[config.defaultProvider];
    if fallback.kind.OpenAiTranslate? || !ForwardsClientAuth(fallback) {
      return Some(UnsafeDefault);
    }
    KeysPresent(config);
    assert ReferencesOk(patterns, config);
    AcceptedReferences(patterns, config);
    error := ValidateRuleLimits(config);
    if error.Some? {
      return;
    }
    error := ValidateClientModels(patterns, config.rules);
  }

  lemma KeysPresent(config: Config)
    requires forall name :: name in config.providers ==> !KeyMissingFor(config, name)
    ensures forall name :: name in config.providers && config.providers[name].kind.OpenAiTranslate? ==>
              HasOwnKey(config.providers[name])
  {
    forall name | name in config.providers && config.providers[name].kind.OpenAiTranslate?
      ensures HasOwnKey(config.providers[name])
    {
      assert !KeyMissingFor(config, name);
    }
  }

  // ----- what acceptance implies

  lemma AcceptedReferences(patterns: Patterns, config: Config)
    requires ReferencesOk(patterns, config)
    ensures ReferencesExist(config)
  {
    forall i | 0 <= i < |config.rules| ensures config.rules[i].provider in config.providers {
      assert RuleReferenceOk(patterns, config, config.rules[i]);
    }
  }

  lemma LandsOnIsFirst(patterns: Patterns, rules: seq<Rule>, position: nat, model: string)
    ensures LandsOn(patterns, rules, position, model) <==> position < |rules| && FirstMatch(patterns, rules, model) == position
  {
  }

  /** An id on offer is sent to the rule that offers it, under that rule's limits. */
  lemma OffersAreServed(patterns: Patterns, config: Config, position: nat, model: string)
    requires ReferencesExist(config) && ClientModelsOk(patterns, config.rules)
    requires position < |config.rules| && model in AdvertisedModelIds(config.rules[position])
    ensures FirstMatch(patterns, config.rules, model) == position
    ensures var rule := config.rules[position];
            Resolve(patterns, config, model)
            == Decision(rule.provider, rule.upstreamModel, ResolveLimits(config.providers[rule.provider], Some(rule)))
  {
    var ids := AdvertisedModelIds(config.rules[position]);
    assert IdsLand(patterns, config.rules, position, |ids|);
    var k :| 0 <= k < |ids| && ids[k] == model;
    assert LandsOn(patterns, config.rules, position, ids[k]);
    LandsOnIsFirst(patterns, config.rules, position, model);
  }

  /** The check is exact: it passes when no id is offered twice and every offered id is served by its rule. */
  lemma ClientModelsOkIff(patterns: Patterns, rules: seq<Rule>)
    ensures ClientModelsOk(patterns, rules) <==>
            && NoRepeats(Offered(rules))
            && forall p, model :: 0 <= p < |rules| && model in AdvertisedModelIds(rules[p]) ==> FirstMatch(patterns, rules, model) == p
  {
    if ClientModelsOk(patterns, rules) {
      forall p, model | 0 <= p < |rules| && model in AdvertisedModelIds(rules[p]) ensures FirstMatch(patterns, rules, model) == p {
        assert IdsLand(patterns, rules, p, |AdvertisedModelIds(rules[p])|);
        LandsOnIsFirst(patterns, rules, p, model);
      }
    } else if NoRepeats(Offered(rules)) {
      var p: nat :| p < |rules| && !IdsLand(patterns, rules, p, |AdvertisedModelIds(rules[p])|);
      var ids := AdvertisedModelIds(rules[p]);
      var k :| 0 <= k < |ids| && !LandsOn(patterns, rules, p, ids[k]);
      LandsOnIsFirst(patterns, rules, p, ids[k]);
      assert ids[k] in AdvertisedModelIds(rules[p]);
    }
  }

  /** No id belongs to two rules. */
  lemma OneOwner(patterns: Patterns, rules: seq<Rule>, p: nat, q: nat, model: string)
    requires ClientModelsOk(patterns, rules) && p < |rules| && q < |rules|
    requires model in AdvertisedModelIds(rules[p]) && model in AdvertisedModelIds(rules[q])
    ensures p == q
  {
    ClientModelsOkIff(patterns, rules);
  }

  /**
   * Whatever model a request names: a translated route has a completion cap, and its window,
   * when it has one, holds more than the cap, the reserve and the smallest useful completion;
   * any other route has no window and no other model is substituted; a model no rule takes
   * goes to a provider that forwards the client's own credentials, and a provider does that
   * exactly when it has no key of its own; bodies are folded for no such provider, and no
   * extra header takes the place of a credential.
   */
  lemma EveryRouteFits(patterns: Patterns, config: Config, model: string)
    requires Accepted(patterns, config) && ReferencesExist(config)
    ensures var route := Resolve(patterns, config, model);
            var provider := config.providers[route.provider];
            && route.provider in config.providers
            && (provider.kind.OpenAiTranslate? ==>
                  && route.limits.maxTokensLimit.Some?
                  && (route.limits.contextWindow.Some? ==>
                        route.limits.contextWindow.value > route.limits.maxTokensLimit.value + 512 + 4096))
            && (provider.kind.Passthrough? ==> route.limits.contextWindow.None? && route.upstreamModel.None?)
            && (FirstMatch(patterns, config.rules, model) == |config.rules| ==> provider.kind.Passthrough? && ForwardsClientAuth(provider))
            && (provider.kind.Passthrough? && ForwardsClientAuth(provider) <==> !HasOwnKey(provider))
            && (provider.foldToolAdditions ==> provider.kind.Passthrough? && HasOwnKey(provider))
            && forall header :: header in provider.extraHeaders ==> !NamesAuth(header)
  {
    var i := FirstMatch(patterns, config.rules, model);
    var route := Resolve(patterns, config, model);
    assert ProviderFault(config.providers[route.provider]).None?;
    assert !KeyMissingFor(config, route.provider);
    if i < |config.rules| {
      assert RuleReferenceOk(patterns, config, config.rules[i]);
      assert RuleLimitsOk(config, config.rules[i]);
    }
  }

  // ----- the rules of the table, written out

  /** A rule takes a model by its whole id, its beginning, a part of it, or its pattern. */
  lemma MatchMeans(patterns: Patterns, rule: MatchRule, model: string)
    ensures MatchModel(patterns, rule, model) <==>
            match rule
            case Exact(value) => model == value
            case Prefix(value) => exists rest :: model == value + rest
            case Contains(value) => exists before, after :: model == before + value + after
            case Regex(value) => patterns.search(value, model)
  {
    match rule
    case Prefix(value) =>
      if value <= model {
        assert model == value + model[|value|..];
      }
    case Contains(value) =>
      if IsIn(value, model) {
        var before, after := FoundIn(value, model);
        assert model == before + value + after;
      }
      if before, after :| model == before + value + after {
        IsInWhole(value, before, after);
      }
    case _ =>
  }

  lemma {:induction false} FoundIn(part: string, text: string) returns (before: string, after: string)
    requires IsIn(part, text)
    ensures text == before + part + after
  {
    if part <= text {
      before, after := "", text[|part|..];
    } else {
      before, after := FoundIn(part, text[1..]);
      before := [text[0]] + before;
    }
  }

  lemma {:induction false} IsInWhole(part: string, before: string, after: string)
    ensures IsIn(part, before + part + after)
  {
    var text := before + part + after;
    if before == "" {
      assert text == part + after;
    } else {
      assert text[1..] == before[1..] + part + after;
      IsInWhole(part, before[1..], after);
    }
  }

  /**
   * A model goes to the first rule that takes it, with that rule's substitution and with its
   * limits where it sets them and the provider's where it does not; otherwise to the default
   * provider, unchanged and under that provider's limits.
   */
  lemma ResolveMeans(patterns: Patterns, config: Config, model: string)
    requires ReferencesExist(config)
    ensures var route := Resolve(patterns, config, model);
            && (forall i: nat :: LandsOn(patterns, config.rules, i, model) ==>
                  var rule, provider := config.rules[i], config.providers[config.rules[i].provider];
                  && route.provider == rule.provider && route.upstreamModel == rule.upstreamModel
                  && route.limits.maxTokensLimit == (if rule.maxTokensLimit.Some? then rule.maxTokensLimit else provider.maxTokensLimit)
                  && route.limits.contextWindow == (if rule.contextWindow.Some? then rule.contextWindow else provider.contextWindow))
            && ((forall i :: 0 <= i < |config.rules| ==> !MatchModel(patterns, config.rules[i].match_, model)) ==>
                  && route.provider == config.defaultProvider && route.upstreamModel == None
                  && route.limits.maxTokensLimit == config.providers[config.defaultProvider].maxTokensLimit
                  && route.limits.contextWindow == config.providers[config.defaultProvider].contextWindow)
  {
    hide MatchModel;
  }

  /** The header is this one whatever its case; the Kelvin sign is a capital K as well. */
  predicate IsHeader(header: string, name: string) {
    && |header| == |name|
    && forall i :: 0 <= i < |name| ==>
         || header[i] == name[i]
         || ('a' <= name[i] <= 'z' && header[i] as int == name[i] as int - 32)
         || (name[i] == 'k' && header[i] == '\U{212A}')
  }

  lemma NamesAuthIff(header: string)
    ensures NamesAuth(header) <==> IsHeader(header, "authorization") || IsHeader(header, "x-api-key")
  {
    LowerIff(header, "authorization");
    LowerIff(header, "x-api-key");
  }

  lemma LowerIff(header: string, name: string)
    requires forall i :: 0 <= i < |name| ==> 'a' <= name[i] <= 'z' || name[i] == '-'
    ensures Lower(header) == name <==> IsHeader(header, name)
  {
    if Lower(header) == name {
      assert |header| == |name|;
      forall i | 0 <= i < |name| ensures LowerChar(header[i]) == name[i] {
        assert Lower(header)[i] == name[i];
      }
    }
    if IsHeader(header, name) {
      forall i | 0 <= i < |name| ensures LowerChar(header[i]) == name[i] {
      }
      assert Lower(header) == name;
    }
  }

  /** What one provider must be like. */
  predicate IsSound(cfg: ProviderCfg) {
    && (forall i :: 0 <= i < |cfg.dropParams| ==> cfg.dropParams[i] == "temperature" || cfg.dropParams[i] == "top_p" || cfg.dropParams[i] == "stop")
    && (match cfg.kind
        case OpenAiTranslate =>
          && cfg.maxTokensLimit.Some? && cfg.forwardClientAuth == None && cfg.authHeader == None && !cfg.foldToolAdditions
          && (cfg.contextWindow.Some? ==> cfg.contextWindow.value > cfg.maxTokensLimit.value + 512 + 4096)
        case Passthrough =>
          && cfg.apiFlavor == Chat && cfg.contextWindow == None
          && var ownKey := cfg.apiKeyEnv != None && cfg.apiKeyEnv != Some("");
             if cfg.forwardClientAuth == Some(false) then ownKey
             else !ownKey && cfg.authHeader == None && !cfg.foldToolAdditions)
    && forall i :: 0 <= i < |cfg.extraHeaders| ==>
         !IsHeader(cfg.extraHeaders[i], "authorization") && !IsHeader(cfg.extraHeaders[i], "x-api-key")
  }

  lemma NoFaultIff(cfg: ProviderCfg)
    ensures ProviderFault(cfg).None? <==> IsSound(cfg)
  {
    hide IsHeader, NamesAuth;
    forall i | 0 <= i < |cfg.extraHeaders|
      ensures NamesAuth(cfg.extraHeaders[i]) <==> IsHeader(cfg.extraHeaders[i], "authorization") || IsHeader(cfg.extraHeaders[i], "x-api-key")
    {
      NamesAuthIff(cfg.extraHeaders[i]);
    }
  }

  /** What one rule must be like, given its provider. */
  predicate Fits(patterns: Patterns, rule: Rule, provider: ProviderCfg) {
    && (rule.match_.Regex? ==> patterns.compiles(rule.match_.value))
    && (provider.kind == Passthrough ==> rule.upstreamModel == None && rule.maxTokensLimit == None && rule.contextWindow == None)
    && var cap := if rule.maxTokensLimit.Some? then rule.maxTokensLimit else provider.maxTokensLimit;
       var window := if rule.contextWindow.Some? then rule.contextWindow else provider.contextWindow;
       cap.Some? && window.Some? ==> window.value > cap.value + 512 + 4096
  }

  /**
   * The router starts with a configuration exactly when every provider is sound, a translating
   * one names its key, the default one forwards the client's credentials, every rule fits its
   * provider, and each offered id is offered once and lands on the rule that offers it.
   */
  lemma AcceptedIff(patterns: Patterns, config: Config)
    ensures Accepted(patterns, config) <==>
            && (forall name :: name in config.providers ==>
                  && IsSound(config.providers[name])
                  && (config.providers[name].kind == OpenAiTranslate ==> config.providers[name].apiKeyEnv !in {None, Some("")}))
            && config.defaultProvider in config.providers
            && config.providers[config.defaultProvider].kind == Passthrough
            && config.providers[config.defaultProvider].forwardClientAuth != Some(false)
            && (forall i :: 0 <= i < |config.rules| ==>
                  config.rules[i].provider in config.providers
                  && Fits(patterns, config.rules[i], config.providers[config.rules[i].provider]))
            && NoRepeats(Offered(config.rules))
            && (forall p, model :: 0 <= p < |config.rules| && model in AdvertisedModelIds(config.rules[p]) ==>
                  FirstMatch(patterns, config.rules, model) == p)
  {
    hide ProviderFault, IsSound, ClientModelsOk, NoRepeats, Offered, FirstMatch;
    forall name | name in config.providers ensures ProviderFault(config.providers[name]).None? <==> IsSound(config.providers[name]) {
      NoFaultIff(config.providers[name]);
    }
    ClientModelsOkIff(patterns, config.rules);
    forall i | 0 <= i < |config.rules|
      ensures RuleReferenceOk(patterns, config, config.rules[i]) && RuleLimitsOk(config, config.rules[i]) <==>
              config.rules[i].provider in config.providers && Fits(patterns, config.rules[i], config.providers[config.rules[i].provider])
    {
      FitsIff(patterns, config, config.rules[i]);
    }
  }

  lemma FitsIff(patterns: Patterns, config: Config, rule: Rule)
    ensures RuleReferenceOk(patterns, config, rule) && RuleLimitsOk(config, rule) <==>
            rule.provider in config.providers && Fits(patterns, rule, config.providers[rule.provider])
  {
  }

  /** The ids on offer are those of every rule, one rule after the other. */
  lemma {:induction false} OfferedMeans(rules: seq<Rule>, position: nat)
    requires position < |rules|
    ensures Offered(rules[..position + 1]) == Offered(rules[..position]) + AdvertisedModelIds(rules[position])
    ensures Offered(rules[..0]) == []
  {
    OfferedPush(rules, position);
  }
}
