# User-by-filter lookup plugin of the SSSD identity-cache request engine

The SSSD responders answer identity queries through a generic cache request
engine. Each lookup kind plugs into that engine through a descriptor of flags and
callbacks. This project models the "user by filter" plugin, the wildcard user
lookup, and proves properties of the model:

- `prepare_domain_data` rewrites the request's lookup key for each domain. It
  takes the parsed name, folds its case by the domain's rule and turns the
  responder's space substitute back into spaces. It is a module-level method
  that takes the request (`CacheReq`) and its working data (`CacheReqData`) and
  may change only the `lookup` field of the working data.
- `create_debug_name` copies the current lookup key.
- `lookup` builds the recency filter `(lastUpdate>=<start time>)` and passes it,
  with the lookup key, to the cache storage's filtered user enumeration. The
  storage's answer is returned unchanged.
- `dpreq_params` tells the backend which key and id to refresh.
- The descriptor `cache_req_user_by_filter` is a constant record.

The time stamp is written by the C library's `%lu` conversion (section 7.21.6.1
of ISO C11: unsigned decimal, at least one digit, no leading zeros). Module
`CFormat` models that conversion and proves three things about it:

- reading the text back gives the printed value;
- different values print differently;
- the printed text is the only canonical decimal spelling of the value.

Collaborators whose code is not part of this model are parameters:

- the case-folding helper `sss_get_cased_name` and the space helper
  `sss_reverse_replace_space` (datatype `Helpers`);
- which of the fallible allocations succeed (`Allocs`, and the flags `strdupOk`
  and `filterOk`);
- the storage query `sysdb_enumpwent_filter_with_views` (a function from the
  query it is handed to its reply).

Files:

- `c_format.dfy`: module `CFormat`, the `%lu` conversion and the 64-bit integer
  types.
- `cache_req_types.dfy`: module `CacheReqTypes`, the request, its working data,
  the domain, the responder context, the storage reply and the plugin descriptor
  record.
- `user_by_filter.dfy`: module `UserByFilter`, the plugin itself.

## Model

| member | source | states |
|---|---|---|
| `UserByFilter.PrepareDomainData` | src/responder/common/cache_req/plugins/cache_req_user_by_filter.c:29-69 | With no parsed name it returns ERR_INTERNAL and keeps the old lookup key. It returns EOK exactly when a parsed name exists and every allocation and helper succeeds; the new key is then ReverseReplaceSpace(CasedName(name, case rule), override space). On any error the previous key is kept. Only `data.lookup` may change (frame ``data`lookup``), and the name is always read from `cr.data`, never from the old key. |
| `UserByFilter.PrepareOutcome` | src/responder/common/cache_req/plugins/cache_req_user_by_filter.c:38-64 | The outcome as a value: ERR_INTERNAL without a parsed name, ENOMEM when a step fails, otherwise the normalized name. The previous lookup key is not an input, so the new key never depends on it. |
| `UserByFilter.PrepareOutcomeReadsOnlyCaseRule` | src/responder/common/cache_req/plugins/cache_req_user_by_filter.c:48-49 | Two domains with the same case-sensitivity rule give the same outcome. |
| `UserByFilter.PrepareDomainDataAgain` | src/responder/common/cache_req/plugins/cache_req_user_by_filter.c:38-64 | Calling prepare twice for the same domain is idempotent: once one call has succeeded, the key stays the normalized name whether or not the second call fails. If both calls fail, the key is the one from before the first call. This holds when `data` is `cr.data` as well. |
| `UserByFilter.CreateDebugName` | src/responder/common/cache_req/plugins/cache_req_user_by_filter.c:71-77 | The debug name equals the current lookup key. It is NULL exactly when the copy fails or the key is NULL. |
| `UserByFilter.RecentFilter` | src/responder/common/cache_req/plugins/cache_req_user_by_filter.c:89-90 | The filter is `(lastUpdate>=`, then a canonical decimal with no leading zeros, then `)`. |
| `UserByFilter.RecentFilterRoundTrip` | src/responder/common/cache_req/plugins/cache_req_user_by_filter.c:89-90 | The number in the filter reads back as the start time, taken as `%lu` takes it (modulo 2^64). |
| `UserByFilter.RecentFilterOfStartTime` | src/responder/common/cache_req/plugins/cache_req_user_by_filter.c:89-90 | For a start time that is not negative, the filter reads back as exactly that time. |
| `UserByFilter.RecentFilterInjective` | src/responder/common/cache_req/plugins/cache_req_user_by_filter.c:89-90 | Different start times give different filters. |
| `UserByFilter.RecentFilterIsOnlyCanonicalForm` | src/responder/common/cache_req/plugins/cache_req_user_by_filter.c:89-90 | A filter of the same shape, whose canonical number has the start time's value, is the recency filter of that start time. |
| `UserByFilter.Lookup` | src/responder/common/cache_req/plugins/cache_req_user_by_filter.c:79-100 | If the filter allocation fails, it returns ENOMEM and the storage is not asked. Otherwise the storage is asked once, for the given domain, with the current `data.name.lookup` and the recency filter of `cr.req_start` (which reads back as that time). The storage's return code and result are returned unchanged. |
| `UserByFilter.DpreqParams` | src/responder/common/cache_req/plugins/cache_req_user_by_filter.c:102-115 | Always EOK, with id `cr.data.id`, string `cr.data.name.lookup` and no flag. |
| `UserByFilter.DpreqParamsIgnoresResult` | src/responder/common/cache_req/plugins/cache_req_user_by_filter.c:102-115 | The backend parameters are the same whatever prior cache result is passed in. |
| `UserByFilter.CallbacksShareLookupKey` | src/responder/common/cache_req/plugins/cache_req_user_by_filter.c:71-115 | On the request's own data, three things use the same key: the storage query's name filter, the backend request string and the debug name. |
| `UserByFilter.UserByFilterPlugin` | src/responder/common/cache_req/plugins/cache_req_user_by_filter.c:117-139 | The descriptor `cache_req_user_by_filter` as a constant record, one field per field of the initialiser. |
| `UserByFilter.UserByFilterPluginSettings` | src/responder/common/cache_req/plugins/cache_req_user_by_filter.c:117-139 | The descriptor's name is "User by filter". Its flags: bypass_cache on; only_one_result, search_all_domains, require_enumeration, allow_missing_fqn and allow_switch_to_upn off; parse_name on; no UPN equivalent; next-domain flags 0; backend kind wildcard user; expiry attribute dataExpireTimestamp. Among the callbacks, is_well_known and all negative-cache callbacks are absent. prepare_domain_data, create_debug_name, lookup and dpreq_params are present. |
| `CFormat.AsUnsignedLong` | src/responder/common/cache_req/plugins/cache_req_user_by_filter.c:89-90 | A start time that is not negative keeps its value when `%lu` reads it as `unsigned long`. A negative one, whose reading C11 leaves undefined, is taken as the LP64 platforms read it: congruent modulo 2^64 (an assumed platform behaviour). |
| `CFormat.UnsignedDecimal` | src/responder/common/cache_req/plugins/cache_req_user_by_filter.c:89-90 | `%lu` output is at least one digit, all digits, with no leading zero unless the value is 0. Values below 10 take one character. |
| `CFormat.FormatLu` | src/responder/common/cache_req/plugins/cache_req_user_by_filter.c:89-90 | The text `%lu` writes for an unsigned 64-bit value is canonical decimal. |
| `CFormat.ParseUnsignedDecimalOfFormat` | src/responder/common/cache_req/plugins/cache_req_user_by_filter.c:89-90 | Reading the decimal text back gives the printed value. |
| `CFormat.CanonicalDecimalIsFormat` | src/responder/common/cache_req/plugins/cache_req_user_by_filter.c:89-90 | Every canonical decimal text is what `%lu` prints for its value, so the spelling is unique. |
| `CFormat.FormatLuInjective` | src/responder/common/cache_req/plugins/cache_req_user_by_filter.c:89-90 | Different values print differently. |

## Left out

- `cache_req_user_by_filter_send` (lines 141-157) is not modelled. It only calls `cache_req_data_name` and `cache_req_steal_data_and_send`, whose code is not part of this model, on top of the asynchronous event runtime.
- The bodies of `sss_get_cased_name` and `sss_reverse_replace_space` are not part of this model. They are parameters (`Helpers`), so no character-level rule is assumed.
- Whether a helper returns NULL is a per-call parameter (`Allocs`). That covers allocation failure and any other reason for NULL.
- `sysdb_enumpwent_filter_with_views` and the cache database with views are foreign storage I/O. They are a parameter whose reply the model passes through.
- talloc memory management (temporary contexts, `talloc_steal`, `talloc_zfree`, `talloc_free`) is not modelled. Only its observable effects are kept: an allocation that can fail, and the old key replaced on success or kept on failure.
- The `mem_ctx` parameters are not modelled, and neither is `create_debug_name`'s `domain` parameter, which the code does not use.
- DEBUG logging is not modelled.
- The generic request engine, the negative cache, request coalescing and domain iteration are not part of this model, so no behaviour of theirs is claimed. Only the descriptor's settings that steer them are stated.
- The header `db/sysdb.h` is not part of this model. SYSDB_LAST_UPDATE is taken as `"lastUpdate"` and SYSDB_CACHE_EXPIRE as `"dataExpireTimestamp"`, the values SSSD defines there.
- The declaration of `req_start` is not part of this model. It is taken to be a `time_t` on an LP64 platform (signed 64-bit), which `%lu` reads as a 64-bit `unsigned long`. For a negative start time ISO C11 leaves that reading undefined (sections 7.16.1.1 and 7.21.6.1, paragraph 9); the model assumes the LP64 platform behaviour, the same bit pattern, so the value modulo 2^64.
- A NULL `name.name` or `name.lookup` pointer is `None`. Other fields of the working data (such as the original input name) are not modelled; the frame ``data`lookup`` forbids changing any of them.
