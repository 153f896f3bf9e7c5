/** The request side of `makeRequest` in util.jsonp: how the options are
    defaulted, which global callback name is chosen, and how the script URL is
    assembled. */
module JsonpRequest {
  import opened JsValues
  import opened Strings

  datatype Option<T> = None | Some(value: T)

  /** Query parameters handed to the query-string serialiser. */
  type Params = map<string, JsValue>

  /** The options object passed to `util.jsonp`. A string option that is absent
      is written as the empty string: both are falsy and take the same branch. */
  datatype Options = Options(
    url: string,
    paramName: string,
    padding: string,
    paddingKey: string,
    noCache: bool,
    timeout: Option<int>,
    requestParams: Option<Params>,
    checkResponse: JsValue,
    responseFieldName: string,
    postprocessUrl: Option<string -> string>)

  /** The time limit used when `timeout` is absent or zero. */
  const DefaultTimeout := 30000

  /** The cache-buster is `Math.floor(Math.random() * 10000000)`, so it lies below this bound. */
  const CacheBusterBound := 10000000

  /** `checkResponse` defaults to true only when the option is `undefined`;
      any other value is used for its truthiness. */
  function EffectiveCheck(opts: Options): (r: bool)
    ensures opts.checkResponse == Undefined ==> r
    ensures opts.checkResponse != Undefined ==> (r <==> Truthy(opts.checkResponse))
    ensures !r <==> opts.checkResponse in {Null, Bool(false), Num(0), Str("")}
  {
    var check := if opts.checkResponse.Undefined? then Bool(true) else opts.checkResponse;
    Truthy(check)
  }

  /** `responseFieldName || 'response'`. */
  function EffectiveField(opts: Options): (r: string)
    ensures r != ""
    ensures opts.responseFieldName != "" ==> r == opts.responseFieldName
    ensures opts.responseFieldName == "" ==> r == "response"
  {
    if opts.responseFieldName != "" then opts.responseFieldName else "response"
  }

  /** `timeout || 30000`: an absent timeout and a zero timeout both give 30000. */
  function EffectiveTimeout(opts: Options): (r: int)
    ensures r != 0
    ensures r == DefaultTimeout <==> opts.timeout in {None, Some(0), Some(DefaultTimeout)}
    ensures opts.timeout.Some? && opts.timeout.value != 0 ==> r == opts.timeout.value
  {
    match opts.timeout
    case None => DefaultTimeout
    case Some(t) => if t != 0 then t else DefaultTimeout
  }

  /** `paramName || 'callback'`. */
  function EffectiveParamName(opts: Options): (r: string)
    ensures r != ""
    ensures opts.paramName != "" ==> r == opts.paramName
    ensures opts.paramName == "" ==> r == "callback"
  {
    if opts.paramName != "" then opts.paramName else "callback"
  }

  /** The name under which a callback is registered on the global object, or
      `None` when the caller brings its own function through `padding`.
      `generated` stands for `utilId.prefix() + utilId.gen()`. */
  function CallbackName(opts: Options, generated: string): (r: Option<string>)
    ensures r.None? <==> opts.padding != ""
    ensures r.Some? && opts.paddingKey != "" ==> r.value == opts.paddingKey
    ensures r.Some? && opts.paddingKey == "" ==> r.value == generated
  {
    if opts.padding != "" then None
    else Some(if opts.paddingKey != "" then opts.paddingKey else generated)
  }

  /** The value of the callback parameter: `padding || callbackName`. */
  function Token(opts: Options, generated: string): (r: string)
    ensures opts.padding != "" ==> r == opts.padding
    ensures opts.padding == "" ==> Some(r) == CallbackName(opts, generated)
  {
    if opts.padding != "" then opts.padding else CallbackName(opts, generated).value
  }

  /** `'&'` when the base URL already holds a query, `'?'` otherwise. */
  function Separator(url: string): char {
    if '?' in url then '&' else '?'
  }

  function CacheBuster(noCache: bool, salt: nat): string {
    if noCache then "&_=" + DecimalString(salt) else ""
  }

  function ParamsSuffix(requestParams: Option<Params>, stringify: Params -> string): string {
    match requestParams
    case None => ""
    case Some(params) => "&" + stringify(params)
  }

  /** The query the loader appends: callback parameter, cache-buster,
      serialised parameters. `salt` stands for the random number and
      `stringify` for the query-string serialiser. */
  function Query(opts: Options, token: string, salt: nat, stringify: Params -> string): string {
    EffectiveParamName(opts) + "=" + token + CacheBuster(opts.noCache, salt) + ParamsSuffix(opts.requestParams, stringify)
  }

  /** The URL before `postprocessUrl`: the base URL, the separator, then the query. */
  function AssembleUrl(opts: Options, token: string, salt: nat, stringify: Params -> string): (r: string)
    ensures |r| > |opts.url| && r[..|opts.url|] == opts.url && r[|opts.url|] == Separator(opts.url)
    ensures r[|opts.url| + 1..] == Query(opts, token, salt, stringify)
    ensures '?' in r
  {
    var r := opts.url + [Separator(opts.url)] + Query(opts, token, salt, stringify);
    assert '?' in opts.url || r[|opts.url|] == '?';
    r
  }

  /** The URL given to the script loader: `postprocessUrl`, when present, is
      applied once, to the complete assembled URL. */
  function BuildUrl(opts: Options, generated: string, salt: nat, stringify: Params -> string): (r: string)
    ensures opts.postprocessUrl.None? ==> r == AssembleUrl(opts, Token(opts, generated), salt, stringify)
    ensures opts.postprocessUrl.Some? ==>
              r == opts.postprocessUrl.value(AssembleUrl(opts, Token(opts, generated), salt, stringify))
  {
    var url := AssembleUrl(opts, Token(opts, generated), salt, stringify);
    match opts.postprocessUrl
    case None => url
    case Some(postprocess) => postprocess(url)
  }

  /** The query of the assembled URL, split on `&`, is exactly: the callback
      parameter, then the cache-buster when `noCache` is set, then the fields of
      the serialised parameters when there are any. */
  lemma QueryFields(opts: Options, token: string, salt: nat, stringify: Params -> string)
    requires '&' !in EffectiveParamName(opts) && '&' !in token
    ensures Split(Query(opts, token, salt, stringify), '&')
               == [EffectiveParamName(opts) + "=" + token]
                  + (if opts.noCache then ["_=" + DecimalString(salt)] else [])
                  + (if opts.requestParams.Some? then Split(stringify(opts.requestParams.value), '&') else [])
  {
    if opts.requestParams.None? && !opts.noCache {
      QueryFieldsBare(opts, token, salt, stringify);
    } else if opts.requestParams.None? {
      QueryFieldsBuster(opts, token, salt, stringify);
    } else if !opts.noCache {
      QueryFieldsParams(opts, token, salt, stringify);
    } else {
      QueryFieldsBoth(opts, token, salt, stringify);
    }
  }

  /** `QueryFields` without cache-buster and without parameters. */
  lemma QueryFieldsBare(opts: Options, token: string, salt: nat, stringify: Params -> string)
    requires '&' !in EffectiveParamName(opts) && '&' !in token
    requires !opts.noCache && opts.requestParams.None?
    ensures Split(Query(opts, token, salt, stringify), '&') == [EffectiveParamName(opts) + "=" + token]
  {
    var callback := EffectiveParamName(opts) + "=" + token;
    assert Query(opts, token, salt, stringify) == callback;
    SplitSingle(callback, '&');
  }

  /** `QueryFields` with the cache-buster and without parameters. */
  lemma QueryFieldsBuster(opts: Options, token: string, salt: nat, stringify: Params -> string)
    requires '&' !in EffectiveParamName(opts) && '&' !in token
    requires opts.noCache && opts.requestParams.None?
    ensures Split(Query(opts, token, salt, stringify), '&')
            == [EffectiveParamName(opts) + "=" + token] + ["_=" + DecimalString(salt)]
  {
    var callback := EffectiveParamName(opts) + "=" + token;
    var buster := "_=" + DecimalString(salt);
    BusterField(salt);
    assert Query(opts, token, salt, stringify) == callback + ['&'] + buster;
    SplitFields(callback, buster);
  }

  /** `QueryFields` with parameters and without the cache-buster. */
  lemma QueryFieldsParams(opts: Options, token: string, salt: nat, stringify: Params -> string)
    requires '&' !in EffectiveParamName(opts) && '&' !in token
    requires !opts.noCache && opts.requestParams.Some?
    ensures Split(Query(opts, token, salt, stringify), '&')
            == [EffectiveParamName(opts) + "=" + token] + Split(stringify(opts.requestParams.value), '&')
  {
    var callback := EffectiveParamName(opts) + "=" + token;
    var encoded := stringify(opts.requestParams.value);
    assert Query(opts, token, salt, stringify) == callback + ['&'] + encoded;
    SplitAfterField(callback, '&', encoded);
  }

  /** `QueryFields` with the cache-buster and parameters. */
  lemma QueryFieldsBoth(opts: Options, token: string, salt: nat, stringify: Params -> string)
    requires '&' !in EffectiveParamName(opts) && '&' !in token
    requires opts.noCache && opts.requestParams.Some?
    ensures Split(Query(opts, token, salt, stringify), '&')
            == [EffectiveParamName(opts) + "=" + token] + ["_=" + DecimalString(salt)]
               + Split(stringify(opts.requestParams.value), '&')
  {
    var callback := EffectiveParamName(opts) + "=" + token;
    var buster := "_=" + DecimalString(salt);
    var encoded := stringify(opts.requestParams.value);
    BusterField(salt);
    assert Query(opts, token, salt, stringify) == callback + ['&'] + buster + ['&'] + encoded;
    SplitFieldsThen(callback, buster, encoded);
  }

  lemma BusterField(salt: nat)
    ensures '&' !in "_=" + DecimalString(salt)
  {
    var d := DecimalString(salt);
    assert forall i :: 0 <= i < |d| ==> d[i] != '&';
  }

  lemma SplitFields(a: string, b: string)
    requires '&' !in a && '&' !in b
    ensures Split(a + ['&'] + b, '&') == [a] + [b]
  {
    SplitAfterField(a, '&', b);
    SplitSingle(b, '&');
  }

  lemma SplitFieldsThen(a: string, b: string, rest: string)
    requires '&' !in a && '&' !in b
    ensures Split(a + ['&'] + b + ['&'] + rest, '&') == [a] + [b] + Split(rest, '&')
  {
    assert a + ['&'] + b + ['&'] + rest == a + ['&'] + (b + ['&'] + rest);
    SplitAfterField(a, '&', b + ['&'] + rest);
    SplitAfterField(b, '&', rest);
  }

  /** The cache-buster field holds the random number in at most seven decimal
      digits, and reading those digits gives the number back. */
  lemma CacheBusterField(salt: nat)
    requires salt < CacheBusterBound
    ensures var d := DecimalString(salt);
            && 1 <= |d| <= 7 && AllDigits(d) && ParseDecimal(d) == salt
            && CacheBuster(true, salt) == "&_=" + d
  {
    assert Pow10(7) == CacheBusterBound;
    DecimalStringLength(salt, 7);
    ParseDecimalString(salt);
  }
}
