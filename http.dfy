/**
 * The HTTP checker's configuration: defaulting of its optional fields, the
 * constructor that validates it, and the status-code comparison of one
 * probe. The request itself is not modelled: its outcome is an input.
 */
module HttpCheck {
  import opened Types

  /** Durations count nanoseconds, as Go's time.Duration does. */
  const Second: int := 1_000_000_000
  const DefaultHttpTimeout: int := 3 * Second
  const StatusOK: int := 200

  datatype Url = Url(text: string)

  /** An HTTP client; only its timeout is modelled. It may be shared between configurations. */
  class Client {
    var timeout: int

    constructor (timeout: int)
      ensures this.timeout == timeout
    {
      this.timeout := timeout;
    }
  }

  datatype HttpError =
    | NilConfig                          // "passed in config cannot be nil"
    | UnableToPrepare(cause: HttpError)   // "unable to prepare given config: %v"
    | NilUrl                             // "URL cannot be nil"
    | StatusMismatch(received: int, expected: int)
    | RequestFailed(message: string)

  /** The outcome of issuing the request: a transport error or a response with its status code. */
  datatype Response = NoResponse(message: string) | Received(statusCode: int)

  class HttpConfig {
    var url: Option<Url>
    var statusCode: int
    var client: Client?
    var timeout: int

    constructor (url: Option<Url>, statusCode: int, client: Client?, timeout: int)
      ensures this.url == url && this.statusCode == statusCode
      ensures this.client == client && this.timeout == timeout
    {
      this.url := url;
      this.statusCode := statusCode;
      this.client := client;
      this.timeout := timeout;
    }

    /** Every optional field has its value and the client uses the configured timeout. */
    ghost predicate Prepared()
      reads this, client
    {
      url.Some? && statusCode != 0 && timeout != 0 && client != null && client.timeout == timeout
    }

    /**
     * Fails on a missing URL and changes nothing then. Otherwise defaults a
     * zero status code to 200 and a zero timeout to 3 seconds, keeps non-zero
     * values, creates a client with that timeout when there is none, and
     * else overwrites the given client's timeout in place.
     */
    method Prepare() returns (err: Option<HttpError>)
      modifies this, client
      ensures old(url).None? ==> err == Some(NilUrl) && unchanged(this)
      ensures old(url).None? && client != null ==> unchanged(client)
      ensures old(url).Some? ==>
        && err.None? && Prepared() && url == old(url)
        && statusCode == (if old(statusCode) == 0 then StatusOK else old(statusCode))
        && timeout == (if old(timeout) == 0 then DefaultHttpTimeout else old(timeout))
        && (old(client) == null ==> fresh(client))
        && (old(client) != null ==> client == old(client))
      ensures old(Prepared()) ==> unchanged(this) && unchanged(client)
    {
      if url.None? {
        return Some(NilUrl);
      }
      if statusCode == 0 {
        statusCode := StatusOK;
      }
      if timeout == 0 {
        timeout := DefaultHttpTimeout;
      }
      if client == null {
        client := new Client(timeout);
      } else {
        client.timeout := timeout;
      }
      return None;
    }
  }

  class Http {
    const config: HttpConfig

    constructor (config: HttpConfig)
      ensures this.config == config
    {
      this.config := config;
    }

    /**
     * One probe: a transport error is passed on, a status code other than
     * the configured one is an error naming both codes, and a matching one
     * succeeds with the elapsed time as payload.
     */
    method Status(response: Response, elapsed: int) returns (r: Result<int, HttpError>)
      ensures r.Success? <==> response.Received? && response.statusCode == config.statusCode
      ensures r.Success? ==> r.value == elapsed
      ensures response.NoResponse? ==> r == Failure(RequestFailed(response.message))
      ensures response.Received? && response.statusCode != config.statusCode ==>
        r == Failure(StatusMismatch(response.statusCode, config.statusCode))
    {
      if response.NoResponse? {
        return Failure(RequestFailed(response.message));
      }
      if response.statusCode != config.statusCode {
        return Failure(StatusMismatch(response.statusCode, config.statusCode));
      }
      return Success(elapsed);
    }
  }

  /**
   * Builds a checker around `cfg`, preparing it in place. A missing
   * configuration or one that fails to prepare gives no checker.
   */
  method NewHttp(cfg: HttpConfig?) returns (h: Http?, err: Option<HttpError>)
    modifies cfg, if cfg != null then {cfg.client} else {}
    ensures cfg == null ==> h == null && err == Some(NilConfig)
    ensures cfg != null && old(cfg.url).None? ==>
      h == null && err == Some(UnableToPrepare(NilUrl)) && unchanged(cfg)
    ensures cfg != null && old(cfg.url).None? && cfg.client != null ==> unchanged(cfg.client)
    ensures cfg != null && old(cfg.url).Some? ==>
      && err.None? && h != null && fresh(h) && h.config == cfg && cfg.Prepared()
      && cfg.url == old(cfg.url)
      && cfg.statusCode == (if old(cfg.statusCode) == 0 then StatusOK else old(cfg.statusCode))
      && cfg.timeout == (if old(cfg.timeout) == 0 then DefaultHttpTimeout else old(cfg.timeout))
      && (old(cfg.client) == null ==> fresh(cfg.client))
      && (old(cfg.client) != null ==> cfg.client == old(cfg.client))
  {
    if cfg == null {
      return null, Some(NilConfig);
    }
    var e := cfg.Prepare();
    if e.Some? {
      return null, Some(UnableToPrepare(e.value));
    }
    h := new Http(cfg);
    err := None;
  }
}
