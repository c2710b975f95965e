/**
 The "user by filter" lookup plugin of the identity-cache request engine: a
 wildcard user lookup. For each domain the engine searches, the plugin rewrites
 the request's lookup key by the domain's naming rules, searches the cache for
 users matching that key which were updated since the request started, and tells
 the engine what to ask the backend for when the cache has to be refreshed.

 The string helpers the plugin calls (case folding and the reverse space
 substitution) are parameters of the model, and so is the cache storage query:
 nothing is assumed about them beyond what the callers here see.
 */
module UserByFilter {
  import opened CFormat
  import opened CacheReqTypes

  /** Cache attribute holding the time a record was last written (SYSDB_LAST_UPDATE). */
  const SysdbLastUpdate: string := "lastUpdate"

  /** Cache attribute holding the time a record expires (SYSDB_CACHE_EXPIRE). */
  const SysdbCacheExpire: string := "dataExpireTimestamp"

  /**
   `sss_get_cased_name` (the name folded by the domain's case-sensitivity rule)
   and `sss_reverse_replace_space` (the responder's space substitute turned back
   into spaces), as the values they compute when they succeed.
   */
  datatype Helpers = Helpers(
    casedName: (string, bool) -> string,
    reverseReplaceSpace: (string, char) -> string
  )

  /**
   Whether each fallible step of one `prepare_domain_data` call succeeds: the
   temporary memory context, then each helper (a helper that fails returns NULL).
   */
  datatype Allocs = Allocs(tmpCtx: bool, cased: bool, spaced: bool)

  predicate AllSucceed(a: Allocs) {
    a.tmpCtx && a.cased && a.spaced
  }

  datatype Result<T> = Ok(value: T) | Err(error: Errno)

  /** The lookup key the domain's rules make of a parsed name. */
  function NormalizedName(h: Helpers, name: string, caseSensitive: bool, overrideSpace: char): string {
    h.reverseReplaceSpace(h.casedName(name, caseSensitive), overrideSpace)
  }

  /**
   What `prepare_domain_data` produces from the parsed name: the new lookup key,
   or the error code it returns. The previous lookup key is not an input.
   */
  function PrepareOutcome(parsed: Option<string>, domain: Domain, rctx: RespCtx, h: Helpers, a: Allocs): (r: Result<string>)
    ensures parsed.None? ==> r == Err(ErrInternal)
    ensures parsed.Some? ==> (r.Ok? <==> AllSucceed(a))
    ensures parsed.Some? && r.Err? ==> r.error == ENOMEM
    ensures r.Ok? ==> r.value == NormalizedName(h, parsed.value, domain.caseSensitive, rctx.overrideSpace)
  {
    if parsed.None? then Err(ErrInternal)
    else if !AllSucceed(a) then Err(ENOMEM)
    else Ok(NormalizedName(h, parsed.value, domain.caseSensitive, rctx.overrideSpace))
  }

  /** Of the domain only its case-sensitivity rule matters to the new key. */
  lemma PrepareOutcomeReadsOnlyCaseRule(parsed: Option<string>, d1: Domain, d2: Domain, rctx: RespCtx, h: Helpers, a: Allocs)
    requires d1.caseSensitive == d2.caseSensitive
    ensures PrepareOutcome(parsed, d1, rctx, h, a) == PrepareOutcome(parsed, d2, rctx, h, a)
  {
  }

  /**
   `prepare_domain_data`: rewrite `data`'s lookup key from the parsed name of the
   request's own data (`cr.data`, which the engine passes again as `data`).
   Only the lookup field of `data` may change, and it changes only when every
   step succeeded; on an error the previous key is kept.
   */
  method PrepareDomainData(cr: CacheReq, data: CacheReqData, domain: Domain, h: Helpers, a: Allocs)
    returns (ret: Errno)
    modifies data`lookup
    ensures old(cr.data.name).None? ==> ret == ErrInternal && data.lookup == old(data.lookup)
    ensures ret == EOK <==> old(cr.data.name).Some? && AllSucceed(a)
    ensures ret != EOK ==> data.lookup == old(data.lookup)
    ensures ret == EOK ==> data.lookup == Some(NormalizedName(h, old(cr.data.name).value, domain.caseSensitive, old(cr.rctx).overrideSpace))
    ensures var r := PrepareOutcome(old(cr.data.name), domain, old(cr.rctx), h, a);
            && ret == (if r.Ok? then EOK else r.error)
            && data.lookup == (if r.Ok? then Some(r.value) else old(data.lookup))
  {
    if cr.data.name.None? {
      return ErrInternal;
    }
    if !a.tmpCtx {
      return ENOMEM;
    }
    var name := h.casedName(cr.data.name.value, domain.caseSensitive);
    if !a.cased {
      return ENOMEM;
    }
    name := h.reverseReplaceSpace(name, cr.rctx.overrideSpace);
    if !a.spaced {
      return ENOMEM;
    }
    data.lookup := Some(name);
    ret := EOK;
  }

  /**
   Preparing the same domain again changes nothing once a preparation has
   succeeded, whether or not the second call's steps succeed; this holds also
   when `data` is the request's own data object.
   */
  method PrepareDomainDataAgain(cr: CacheReq, data: CacheReqData, domain: Domain, h: Helpers, first: Allocs, second: Allocs)
    returns (ret1: Errno, ret2: Errno)
    modifies data`lookup
    ensures ret1 == EOK ==> old(cr.data.name).Some? && (ret2 == EOK || ret2 == ENOMEM)
    ensures ret1 == EOK ==> data.lookup == Some(NormalizedName(h, old(cr.data.name).value, domain.caseSensitive, old(cr.rctx).overrideSpace))
    ensures old(cr.data.name).None? ==> ret1 == ErrInternal && ret2 == ErrInternal
    ensures ret1 != EOK && ret2 != EOK ==> data.lookup == old(data.lookup)
  {
    ret1 := PrepareDomainData(cr, data, domain, h, first);
    ret2 := PrepareDomainData(cr, data, domain, h, second);
  }

  /** `create_debug_name`: a copy of the current lookup key, or NULL if the copy fails or there is none. */
  function CreateDebugName(data: CacheReqData, strdupOk: bool): (s: Option<string>)
    reads data
    ensures s.Some? <==> strdupOk && data.lookup.Some?
    ensures s.Some? ==> s == data.lookup
  {
    if strdupOk then data.lookup else None
  }

  /** The fixed start of the recency filter, up to the time stamp. */
  const RecentFilterPrefix: string := "(" + SysdbLastUpdate + ">="

  /**
   The recency filter `lookup` builds with `"(%s>=%lu)"`: records of the cache
   attribute "last update" no older than the request's start time, the time
   written as `%lu` does.
   */
  function RecentFilter(reqStart: int64): (f: string)
    ensures |f| >= |RecentFilterPrefix| + 2
    ensures f[..|RecentFilterPrefix|] == RecentFilterPrefix && f[|f| - 1] == ')'
    ensures IsCanonicalDecimal(f[|RecentFilterPrefix|..|f| - 1])
  {
    var f := RecentFilterPrefix + FormatLu(AsUnsignedLong(reqStart)) + ")";
    assert f[|RecentFilterPrefix|..|f| - 1] == FormatLu(AsUnsignedLong(reqStart));
    f
  }

  /** Reads the time stamp back out of a recency filter. */
  function ParseRecentFilter(f: string): (t: Option<nat>)
    ensures t.Some? ==> |f| >= |RecentFilterPrefix| + 2 && f[..|RecentFilterPrefix|] == RecentFilterPrefix && f[|f| - 1] == ')'
  {
    var k := |RecentFilterPrefix|;
    if |f| >= k + 1 && f[..k] == RecentFilterPrefix && f[|f| - 1] == ')' then
      ParseUnsignedDecimal(f[k..|f| - 1])
    else
      None
  }

  /** The recency filter carries exactly the start time as `%lu` reads it. */
  lemma RecentFilterRoundTrip(reqStart: int64)
    ensures ParseRecentFilter(RecentFilter(reqStart)) == Some(AsUnsignedLong(reqStart) as nat)
  {
    var f := RecentFilter(reqStart);
    var digits := FormatLu(AsUnsignedLong(reqStart));
    assert f == RecentFilterPrefix + digits + ")";
    assert f[|RecentFilterPrefix|..|f| - 1] == digits;
    ParseUnsignedDecimalOfFormat(AsUnsignedLong(reqStart) as nat);
  }

  /** For a start time at or after the epoch, the filter reads back as that time. */
  lemma RecentFilterOfStartTime(reqStart: int64)
    requires reqStart >= 0
    ensures ParseRecentFilter(RecentFilter(reqStart)) == Some(reqStart as int as nat)
  {
    RecentFilterRoundTrip(reqStart);
  }

  /** Different start times give different filters. */
  lemma RecentFilterInjective(t1: int64, t2: int64)
    ensures RecentFilter(t1) == RecentFilter(t2) ==> t1 == t2
  {
    RecentFilterRoundTrip(t1);
    RecentFilterRoundTrip(t2);
  }

  /**
   A filter of the recency shape, with a canonical time stamp of the start time's
   `%lu` value, is the recency filter of that start time.
   */
  lemma RecentFilterIsOnlyCanonicalForm(f: string, reqStart: int64)
    requires |f| >= |RecentFilterPrefix| + 2
    requires f[..|RecentFilterPrefix|] == RecentFilterPrefix && f[|f| - 1] == ')'
    requires IsCanonicalDecimal(f[|RecentFilterPrefix|..|f| - 1])
    requires ParseRecentFilter(f) == Some(AsUnsignedLong(reqStart) as nat)
    ensures f == RecentFilter(reqStart)
  {
    var k := |RecentFilterPrefix|;
    var digits := f[k..|f| - 1];
    CanonicalDecimalIsFormat(digits);
    assert digits == FormatLu(AsUnsignedLong(reqStart));
    assert f == f[..k] + digits + [f[|f| - 1]];
  }

  /** What `lookup` did: its return code, the storage query it issued (if any), and the result written. */
  datatype LookupCall = LookupCall(ret: Errno, query: Option<SysdbQuery>, result: Option<LdbResult>)

  /**
   `lookup`: build the recency filter (failing with ENOMEM if that allocation
   fails, before the storage is asked), then ask the storage for the users of
   the domain matching the current lookup key and the filter, and return the
   storage's answer unchanged.
   */
  function Lookup(cr: CacheReq, data: CacheReqData, domain: Domain, sysdb: SysdbQuery -> SysdbReply, filterOk: bool): (c: LookupCall)
    reads cr, data
    ensures !filterOk ==> c == LookupCall(ENOMEM, None, None)
    ensures filterOk ==> c.query.Some?
    ensures c.query.Some? ==>
              && c.query.value.domain == domain
              && c.query.value.nameFilter == data.lookup
              && c.query.value.addtlFilter == RecentFilter(cr.reqStart)
              && ParseRecentFilter(c.query.value.addtlFilter) == Some(AsUnsignedLong(cr.reqStart) as nat)
              && c.ret == sysdb(c.query.value).ret
              && c.result == sysdb(c.query.value).result
  {
    if !filterOk then
      LookupCall(ENOMEM, None, None)
    else
      var q := SysdbQuery(domain, data.lookup, RecentFilter(cr.reqStart));
      var reply := sysdb(q);
      RecentFilterRoundTrip(cr.reqStart);
      LookupCall(reply.ret, Some(q), reply.result)
  }

  /** The backend request parameters: the key string, the numeric id and the optional flag. */
  datatype DpReqParams = DpReqParams(ret: Errno, str: Option<string>, id: uint32, flag: Option<string>)

  /**
   `dpreq_params`: the backend is asked for the request's current lookup key and
   id, with no flag; the cache result passed in is not consulted.
   */
  function DpreqParams(cr: CacheReq, result: Option<LdbResult>): (p: DpReqParams)
    reads cr, cr.data
    ensures p.ret == EOK
    ensures p.str == cr.data.lookup && p.id == cr.data.id && p.flag.None?
  {
    DpReqParams(EOK, cr.data.lookup, cr.data.id, None)
  }

  /** The backend parameters do not depend on the prior cache result. */
  lemma DpreqParamsIgnoresResult(cr: CacheReq, r1: Option<LdbResult>, r2: Option<LdbResult>)
    ensures DpreqParams(cr, r1) == DpreqParams(cr, r2)
  {
  }

  /**
   On the request's own data, the cache search, the backend request and the
   debug name all use one key: the current lookup key.
   */
  lemma CallbacksShareLookupKey(cr: CacheReq, domain: Domain, sysdb: SysdbQuery -> SysdbReply, result: Option<LdbResult>)
    ensures Lookup(cr, cr.data, domain, sysdb, true).query.value.nameFilter == DpreqParams(cr, result).str
    ensures CreateDebugName(cr.data, true) == DpreqParams(cr, result).str
  {
  }

  /** The plugin descriptor `cache_req_user_by_filter`. */
  const UserByFilterPlugin: Plugin := Plugin(
    name := "User by filter",
    dpType := DpWildcardUser,
    attrExpiration := SysdbCacheExpire,
    parseName := true,
    bypassCache := true,
    onlyOneResult := false,
    searchAllDomains := false,
    requireEnumeration := false,
    allowMissingFqn := false,
    allowSwitchToUpn := false,
    upnEquivalent := CacheReqSentinel,
    getNextDomainFlags := 0,
    hasIsWellKnown := false,
    hasPrepareDomainData := true,
    hasCreateDebugName := true,
    hasGlobalNcacheAdd := false,
    hasNcacheCheck := false,
    hasNcacheAdd := false,
    hasLookup := true,
    hasDpreqParams := true
  )

  /**
   Every field of the descriptor's initialiser: the name is "User by filter";
   bypass_cache and parse_name are set; only_one_result, search_all_domains,
   require_enumeration, allow_missing_fqn and allow_switch_to_upn are clear;
   upn_equivalent is the sentinel; get_next_domain_flags is 0; the four
   callbacks above are set and the other callback slots are NULL.
   */
  lemma UserByFilterPluginSettings()
    ensures UserByFilterPlugin.name == "User by filter"
    ensures UserByFilterPlugin.bypassCache && !UserByFilterPlugin.onlyOneResult
    ensures UserByFilterPlugin.parseName && !UserByFilterPlugin.searchAllDomains
    ensures !UserByFilterPlugin.requireEnumeration && !UserByFilterPlugin.allowMissingFqn
    ensures !UserByFilterPlugin.allowSwitchToUpn && UserByFilterPlugin.upnEquivalent == CacheReqSentinel
    ensures UserByFilterPlugin.getNextDomainFlags == 0
    ensures UserByFilterPlugin.dpType == DpWildcardUser && UserByFilterPlugin.attrExpiration == SysdbCacheExpire
    ensures !UserByFilterPlugin.hasIsWellKnown
    ensures !UserByFilterPlugin.hasGlobalNcacheAdd && !UserByFilterPlugin.hasNcacheCheck && !UserByFilterPlugin.hasNcacheAdd
    ensures UserByFilterPlugin.hasPrepareDomainData && UserByFilterPlugin.hasCreateDebugName
    ensures UserByFilterPlugin.hasLookup && UserByFilterPlugin.hasDpreqParams
  {
  }
}
