/**
 * The API definition form (`ApiEditor`): basic information, authentication, the
 * rate limit and an IP whitelist edited through a text input and tag buttons.
 */
module ApiEditing {
  import opened Options
  import opened Seqs
  import opened Text

  /**
   * The definition being edited. `rateLimit` holds what `parseInt` made of the
   * number input; `None` stands for `NaN`.
   */
  datatype ApiConfig = ApiConfig(
    name: string, endpoint: string, httpMethod: string, description: string, authType: string,
    rateLimit: Option<int>, whitelist: seq<string>, metrics: seq<string>)

  const InitialConfig: ApiConfig := ApiConfig("", "/api/v1/", "GET", "", "API_KEY", Some(1000), [], [])

  /** The form controls other than the whitelist, each replacing one property. */
  datatype ConfigEdit =
    | SetName(name: string)
    | SetMethod(httpMethod: string)
    | SetEndpoint(endpoint: string)
    | SetDescription(description: string)
    | SetAuthType(authType: string)
    | SetRateLimit(text: string)

  function ApplyConfigEdit(c: ApiConfig, e: ConfigEdit): (r: ApiConfig)
    ensures r.whitelist == c.whitelist && r.metrics == c.metrics
    ensures e.SetName? ==> r == c.(name := e.name)
    ensures e.SetMethod? ==> r == c.(httpMethod := e.httpMethod)
    ensures e.SetEndpoint? ==> r == c.(endpoint := e.endpoint)
    ensures e.SetDescription? ==> r == c.(description := e.description)
    ensures e.SetAuthType? ==> r == c.(authType := e.authType)
    ensures e.SetRateLimit? ==> r == c.(rateLimit := ParseInt(e.text))
  {
    match e
    case SetName(name) => c.(name := name)
    case SetMethod(m) => c.(httpMethod := m)
    case SetEndpoint(endpoint) => c.(endpoint := endpoint)
    case SetDescription(description) => c.(description := description)
    case SetAuthType(authType) => c.(authType := authType)
    case SetRateLimit(text) => c.(rateLimit := ParseInt(text))
  }

  /** Typing a number into the rate-limit input stores that number. */
  lemma RateLimitRoundTrip(c: ApiConfig, n: nat)
    ensures ApplyConfigEdit(c, SetRateLimit(Decimal(n))).rateLimit == Some(n)
  {
    NumeralRoundTrip(n, "");
    assert Decimal(n) + "" == Decimal(n);
  }

  class ApiEditor {
    var apiConfig: ApiConfig
    var whitelistIp: string

    /** The whitelist holds each address at most once. */
    ghost predicate Valid()
      reads this
    {
      Distinct(apiConfig.whitelist)
    }

    constructor ()
      ensures Valid()
      ensures apiConfig == InitialConfig && whitelistIp == ""
    {
      apiConfig := InitialConfig;
      whitelistIp := "";
    }

    /** The address input. */
    method SetIpInput(text: string)
      requires Valid()
      modifies this`whitelistIp
      ensures Valid() && whitelistIp == text
    {
      whitelistIp := text;
    }

    /**
     * `handleAddIp`: a non-empty address not yet listed is appended and the input
     * cleared; an empty or listed address changes neither.
     */
    method AddIp()
      requires Valid()
      modifies this`apiConfig, this`whitelistIp
      ensures Valid()
      ensures old(whitelistIp) != "" && old(whitelistIp) !in old(apiConfig).whitelist ==>
                apiConfig == old(apiConfig).(whitelist := old(apiConfig).whitelist + [old(whitelistIp)]) &&
                whitelistIp == ""
      ensures old(whitelistIp) == "" || old(whitelistIp) in old(apiConfig).whitelist ==>
                apiConfig == old(apiConfig) && whitelistIp == old(whitelistIp)
    {
      if whitelistIp != "" && whitelistIp !in apiConfig.whitelist {
        AppendFreshDistinct(apiConfig.whitelist, whitelistIp);
        apiConfig := apiConfig.(whitelist := apiConfig.whitelist + [whitelistIp]);
        whitelistIp := "";
      }
    }

    /** `handleRemoveIp`: the address is no longer listed; everything else stays. */
    method RemoveIp(ip: string)
      requires Valid()
      modifies this`apiConfig
      ensures Valid()
      ensures apiConfig == old(apiConfig).(whitelist := Without(old(apiConfig).whitelist, ip))
      ensures ip !in apiConfig.whitelist && IsSubseq(apiConfig.whitelist, old(apiConfig).whitelist)
    {
      WithoutPreservesDistinct(apiConfig.whitelist, ip);
      apiConfig := apiConfig.(whitelist := Without(apiConfig.whitelist, ip));
    }

    /** A form control other than the whitelist. */
    method Edit(e: ConfigEdit)
      requires Valid()
      modifies this`apiConfig
      ensures Valid()
      ensures apiConfig == ApplyConfigEdit(old(apiConfig), e)
    {
      apiConfig := ApplyConfigEdit(apiConfig, e);
    }

    /** The save button hands the current definition to the caller. */
    method Save() returns (saved: ApiConfig)
      requires Valid()
      ensures saved == apiConfig && Distinct(saved.whitelist)
    {
      saved := apiConfig;
    }
  }

  /** Adding an address and then removing it leaves the whitelist as it was. */
  lemma AddThenRemoveIp(whitelist: seq<string>, ip: string)
    requires ip !in whitelist
    ensures Without(whitelist + [ip], ip) == whitelist
  {
    WithoutUndoesAppend(whitelist, ip);
  }
}
