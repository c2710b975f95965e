/**
 The parts of the identity-cache request engine's state that the "user by filter"
 lookup plugin reads or writes: the request, its working data, the domain being
 searched, the responder context, the cache storage's reply, and the plugin
 descriptor record through which the engine finds the plugin's callbacks.
 */
module CacheReqTypes {
  import opened CFormat

  /** The C `uint32_t` of numeric ids. */
  newtype uint32 = x: int | 0 <= x < 0x1_0000_0000

  /**
   The `errno_t` codes this plugin produces. The storage query may answer with
   any code, which the plugin hands on untouched; those are `OtherErrno`.
   */
  datatype Errno = EOK | ENOMEM | ErrInternal | OtherErrno(code: int)

  /** The part of `struct sss_domain_info` the plugin reads; read-only here. */
  datatype Domain = Domain(name: string, caseSensitive: bool)

  /** The part of the responder context the plugin reads: the `override_space` character. */
  datatype RespCtx = RespCtx(overrideSpace: char)

  /**
   The request's working data (`struct cache_req_data`): the parsed name
   (`name.name`), the key the cache is searched with (`name.lookup`) and the
   numeric id. A C NULL pointer is `None`.
   */
  class CacheReqData {
    var name: Option<string>
    var lookup: Option<string>
    var id: uint32

    constructor (name: Option<string>, lookup: Option<string>, id: uint32)
      ensures this.name == name && this.lookup == lookup && this.id == id
    {
      this.name := name;
      this.lookup := lookup;
      this.id := id;
    }
  }

  /**
   The request (`struct cache_req`): its working data, the responder context and
   the time the request started (`req_start`, a `time_t`).
   */
  class CacheReq {
    var data: CacheReqData
    var rctx: RespCtx
    var reqStart: int64

    constructor (data: CacheReqData, rctx: RespCtx, reqStart: int64)
      ensures this.data == data && this.rctx == rctx && this.reqStart == reqStart
    {
      this.data := data;
      this.rctx := rctx;
      this.reqStart := reqStart;
    }
  }

  /** One record of the cache database: attribute name to values. */
  datatype LdbMessage = LdbMessage(attrs: map<string, seq<string>>)

  /** The records a cache query matched (`struct ldb_result`). */
  datatype LdbResult = LdbResult(msgs: seq<LdbMessage>)

  /** The arguments the plugin hands the cache storage's filtered user enumeration. */
  datatype SysdbQuery = SysdbQuery(domain: Domain, nameFilter: Option<string>, addtlFilter: string)

  /** The storage query's return code and, when it wrote one, its result. */
  datatype SysdbReply = SysdbReply(ret: Errno, result: Option<LdbResult>)

  /** Backend request kinds (`enum sss_dp_acct_type`); only the one used here. */
  datatype DpType = DpWildcardUser

  /** Lookup kinds (`enum cache_req_type`); only the ones named here. */
  datatype CacheReqType = CacheReqUserByFilter | CacheReqSentinel

  /**
   The plugin descriptor (`struct cache_req_plugin`): a name, the backend
   request kind, the cache attribute that holds a record's expiry, the flags
   that steer the engine, and for each callback slot whether it is set.
   */
  datatype Plugin = Plugin(
    name: string,
    dpType: DpType,
    attrExpiration: string,
    parseName: bool,
    bypassCache: bool,
    onlyOneResult: bool,
    searchAllDomains: bool,
    requireEnumeration: bool,
    allowMissingFqn: bool,
    allowSwitchToUpn: bool,
    upnEquivalent: CacheReqType,
    getNextDomainFlags: uint32,
    hasIsWellKnown: bool,
    hasPrepareDomainData: bool,
    hasCreateDebugName: bool,
    hasGlobalNcacheAdd: bool,
    hasNcacheCheck: bool,
    hasNcacheAdd: bool,
    hasLookup: bool,
    hasDpreqParams: bool
  )
}
