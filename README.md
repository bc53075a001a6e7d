# fastify-elastic in Dafny

A model of the core of `fastify-elastic`, a helper library around the Fastify
web server. The model covers six pieces:

- **Role and scope check** (`test.js`).
  - A fixed role-to-actions table.
  - Grants of the form `role:seg/seg/...` from the token's `roles` claim.
  - `hasPermission(action, scope?)`, which pre-filters grants against the configured `SCOPE`, checks the action and walks the requested path segment by segment.
- **Request ids** (`plugins/request-id.js`, and its twin in `index.js`).
  - A process-wide counter, rendered as a 10-character zero-padded base-36 suffix after the host name.
  - An exit with code 13 at 36^10 − 1 in the plugin. The `index.js` twin logs through `this.server.log` first; it is installed unbound in a strict-mode module, so that read raises a TypeError and the exit is never reached.
  - A header `x-request-id` that takes precedence.
- **The `Fastify` wrapper class** (`index.js`).
  - Defaults and credential checks of `setupLogging`.
  - The constructor's in-place normalisation of the Fastify options.
  - `route` and `routeMultiple`, which rewrite urls to `/<version>/<service>/<url>` and attach the auth pre-handler.
  - `addAuthPreHandler`.
- **Sitemaps** (`plugins/sitemap.js`), in the format of the Sitemap protocol 0.9 of sitemaps.org.
  - The optional `<lastmod>`, `<changefreq>` and `<priority>` fields.
  - `xhtml:link` alternates.
  - Per-route url entries with their translations.
  - The sitemap index, with one entry per distinct language.
  - The per-language urlset and the global urlset.
  - The dispatch between these three documents.
  - The plugin's option defaults and routes.
  - The per-language "last generated" table.
- **JWT pre-handler** (`plugins/jwt.js`): the control flow of the hook, and the `hasRole` closure. Header decoding and signature verification are function parameters.
- **Reply helpers** (`plugins/reply-decorator.js`): `success`, `fail` and `error`, and the `onRequest` hook that attaches them.

Objects that the code changes in place are classes:

- the request, the reply and the server;
- route definitions;
- the Fastify and Elasticsearch option objects;
- the logging options;
- the request-id counter;
- the process environment;
- the sitemap plugin's module state.

Pure code is datatypes and functions.

JavaScript semantics are written out where they matter:

- truthiness, and `||` as distinct from `??`;
- default parameters, which apply only to `undefined`;
- `split` on one character;
- `replace` with a string pattern, which replaces the first occurrence only;
- `substring(7)`;
- `some`, which stops at the first success;
- `new Set`, which keeps the order of first occurrence;
- TypeErrors, which are modelled as `Err` outcomes.

The model follows the code, quirks included, where an idealised design would
differ:

- **Grant order.** A grant whose segment at index 0, or at an intermediate index, differs from the request is not rejected. A later index can still accept it.
- **Length mismatches** between the grant and the requested path are tolerated.
- **Single segments.** A single-segment requested scope, including the scope used when none is given, is never granted, because every success branch of the loop needs an index above 0. A final-segment rule would grant it under a `*` grant.
- **Bad grants.** A grant without `:`, or a grant naming an unknown role, raises a TypeError instead of being skipped. A grant without `:` fails in the `filter`, before `some` runs, wherever it stands in the list. A grant naming an unknown role fails inside `some`, which stops early, so its error is raised only when no earlier grant succeeded (`Permissions.FaultAfterSuccess`, `Permissions.FaultBeforeSuccess`).
- **`hasRole`** compares whole `roles` entries such as `admin:X/*` with its argument, not role names.
- **Dynamic routes.** The global sitemap collects the `dynamicRoutes` results and then does not use them.

## Model

| member | source | states |
|---|---|---|
| Values.Or | index.js:24-26 | `a \|\| b`: truthy iff either is, the left operand when it is truthy, else the right |
| Text.Split | test.js:20-29 | `split(c)` yields one more piece than separators and no piece holds the separator |
| Text.SplitAround | test.js:25-29 | splitting at a first separator gives the piece before it, then the pieces of the rest |
| Text.JoinSplit | test.js:25-29 | joining the pieces of a split gives back the string |
| Text.SplitJoin | test.js:25-29 | splitting a join of separator-free pieces gives back the pieces |
| Text.Find | plugins/sitemap.js:36 | the result is the first position from `from` at which the needle occurs, None when there is none |
| Text.ReplaceAt | plugins/sitemap.js:36 | `replace` with a string pattern changes only the first occurrence |
| Text.ReplaceAbsent | plugins/sitemap.js:36 | a string without the pattern is unchanged |
| Base36.ToBase36 | plugins/request-id.js:36 | `toString(36)` is a non-empty string over `0-9a-z` |
| Base36.FromToBase36 | plugins/request-id.js:36 | reading the base-36 text back gives the number |
| Base36.Suffix | plugins/request-id.js:36 | `('0000000000' + n.toString(36)).slice(-10)` has length 10 over `0-9a-z` |
| Base36.SuffixDecodes | plugins/request-id.js:36 | below 36^10 the 10-character suffix decodes to the counter: nothing is cut off |
| Base36.SuffixInjective | plugins/request-id.js:36 | below 36^10 different counters give different suffixes |
| Permissions.ConfiguredScope | test.js:5-6 | `env.SCOPE` after the defaulting is never empty, and is the set value when there is one |
| Permissions.WalkSegments | test.js:35-66 | the indexed loop with `continue` and early return accepts iff some index 1..n−1 is the last one with equal segments, or has a `*` grant segment where the segments differ |
| Permissions.FilterGrants | test.js:19-20 | keeps exactly the grants whose scope part starts with the tenant; raises iff some grant has no `:` |
| Permissions.AnyGrant | test.js:24-69 | `some`: true only for a grant that allows the request; an error names a role missing from the table; without unknown roles it is the OR over the grants |
| Permissions.Decide | test.js:9-20 | false when `roles` is absent or not an array; true only through a candidate grant that allows the effective scope |
| Permissions.HasPermission | test.js:4-70 | defaults `env.SCOPE` to `RIP` in place, then returns what `Decide` answers for the defaulted scope |
| Permissions.SomeGrant | test.js:24-69 | the `roles.some(...)` loop, stopping at the first grant that succeeds or raises, computes exactly `AnyGrant` |
| Permissions.DecideWellFormed | test.js:19-69 | with no faulty grant, the answer is the OR over candidate grants of action check and walk |
| Permissions.PermutationInvariant | test.js:24 | reordering well-formed `roles` does not change the answer |
| Permissions.SingleSegmentNeverGranted | test.js:39-64 | a requested path of one segment is never granted |
| Permissions.OmittedScopeNeverGranted | test.js:9-10 | an omitted scope with a configured scope without `/` (such as `RIP`) is never granted |
| Permissions.StrictImpliesWalk | test.js:39-64 | on paths of two or more segments, whatever a strict prefix-and-leaf matcher accepts, the walk accepts |
| Permissions.WalkIgnoresEarlierMismatch | test.js:39-64 | the walk accepts a tenant mismatch and a length mismatch the strict matcher refuses, and refuses a one-segment exact match |
| Permissions.RoleChain | test.js:75-104 | guest ⊆ user ⊆ contributor ⊆ moderator ⊆ admin, and every role can `read` |
| Permissions.GrantParts | test.js:25-27 | `role:scope` splits back into its role and scope |
| Permissions.WildcardDecide | test.js:9-69 | against the single grant `role:T/*` of a known role, with `SCOPE` set to `T`, the answer is that role's action check and the walk over `[T, *]` |
| Permissions.AdminWildcard | test.js:109-118 | against the single grant `admin:T/*` the answer is the admin action check and the walk over `[T, *]` |
| Permissions.WorkedCalls | test.js:118-128 | the calls at the end of test.js: three-segment scopes whose middle segment is not `*`, and every two-segment scope (`T/*` included), get exactly the admin actions; omitted scopes are refused |
| Permissions.WildcardMiddleRefused | test.js:45-64 | a `*` as the middle requested segment is refused under `admin:T/*` |
| Permissions.RequestTenantNotChecked | test.js:19-20 | a grant for the configured tenant answers true for a request naming another tenant |
| Permissions.FilterKeepsPair | test.js:19-20 | two candidate grants pass the filter in order |
| Permissions.WildcardParts | test.js:19-64 | `role:T/*` of a known role is a candidate for tenant `T` and allows that role's actions on any `T/x` |
| Permissions.StarIsNotLast | test.js:45-64 | a requested segment equal to the grant's last segment, followed by one more, makes the walk step past the grant and refuse |
| Permissions.AdminWildcardParts | test.js:112 | `admin:T/*` is a candidate that allows `read` on `T/x` |
| Permissions.RootGrantParts | test.js:25-34 | `root:T/x` is a candidate whose role is not in the table |
| Permissions.FirstGrantAllows | test.js:24 | `some` answers true at a first allowing grant, whatever follows |
| Permissions.FaultAfterSuccess | test.js:24-34 | an unknown role after an allowing grant is never looked up: the answer is true |
| Permissions.FaultBeforeSuccess | test.js:24-34 | the same grants in the other order raise for the unknown role |
| RequestId.IdFor | plugins/request-id.js:36 | the id is the host name followed by 10 base-36 digits |
| RequestId.MaxIsLargestTenDigits | plugins/request-id.js:4 | 3656158440062975 is 36^10 − 1 |
| RequestId.IdDecodes | plugins/request-id.js:33-36 | every id issued below the ceiling decodes back to its counter |
| RequestId.IdsDistinct | plugins/request-id.js:33-36 | ids for different counters differ |
| RequestId.IdCounter.Next | plugins/request-id.js:33-36 | exits with 13 at the ceiling, else increments by one and issues the id of the new value; the counter never passes the ceiling |
| RequestId.IdCounter.NextMany | tests/request-id.ts:53-63 | k calls in a row issue the ids of the next k counter values, or stop at the ceiling |
| RequestId.GenerateRequestId | plugins/request-id.js:29-37 | a truthy `x-request-id` header is returned and the counter untouched; otherwise as `Next` |
| RequestId.GeneratedIdsDistinct | plugins/request-id.js:29-37 | ids issued by successive calls are pairwise distinct |
| RequestId.SuffixTwoDigits | plugins/request-id.js:36 | a counter value with two base-36 digits gets eight zeros of padding in front of those digits |
| RequestId.FormattingVectors | tests/request-id.ts:42-63 | the 1st, 100th, 101st, 200th, 201st and 300th ids on host `testing-bob` |
| RequestId.SetHeader | plugins/request-id.js:24-26 | sets `x-request-id` to the request id and nothing else |
| RequestId.Register | plugins/request-id.js:12-16 | registers exactly one hook, `setHeader` on `onResponse` |
| App.CheckCredentials | index.js:28-34 | missing auth, username or password first; then username shorter than 2; then password shorter than 5; else valid |
| App.EmptyCredentials | index.js:28-34 | empty credentials are not "missing": they fail the length checks, username first |
| App.SetupLogging | index.js:23-45 | `es-version` 8, `op_type` `create`, `consistency` `one` only when falsy, written before validation; level `info` when falsy, only after validation |
| App.NormalizedLogger | index.js:95-99 | nullish becomes `true`; anything but `true` becomes the pino logger when elastic is configured; else unchanged |
| App.Version | index.js:136 | `APP_VERSION ?? 'test'`: an empty version is kept |
| App.PrefixedShape | index.js:136 | after n rewrites the url is longer by n prefixes and still ends with the original url |
| App.PrefixedSegments | index.js:136 | a rewritten url splits into `""`, the version, the service name and the url's own segments |
| App.Fastify.AddAuthPreHandler | index.js:126-128 | stores the auth pre-handler |
| App.Fastify.GenerateRequestId | index.js:13-21 | no header check: at the ceiling the unbound `this.server.log` read raises a TypeError with the counter unchanged, else issues the next counter's id |
| App.Fastify.Route | index.js:133-142 | url becomes `/<version>/<service>/<url>`; pre-handler replaced iff an auth pre-handler is set; verb and permission kept; route registered, hooks and decorators untouched |
| App.Fastify.RouteMultiple | index.js:147-149 | routes registered in order; each route object rewritten once per occurrence; verbs, permissions, hooks and decorators untouched |
| App.Fastify.PreHandlerCall | index.js:138-140 | the installed pre-handler calls the current auth pre-handler with the route's current `requiredPermission` |
| App.Create | index.js:87-113 | throws without Fastify options; `trustProxy` and `disableRequestLogging` always truthy; succeeds iff `setupLogging` is not called or the credentials pass; logger normalised and `genReqId` set on success; the Elasticsearch defaults written iff `setupLogging` runs, even when it throws, with `auth` kept; the logger level defaulted to `info` only on a successful setup |
| Jwt.BearerToken | plugins/jwt.js:22 | `substring(7)`: empty for headers of 7 characters or fewer, else what follows them |
| Jwt.BearerRoundTrip | plugins/jwt.js:22 | the token is whatever follows a 7-character scheme |
| Jwt.Authenticate | plugins/jwt.js:21-30 | skip iff no header or empty token; 401 iff the decoded header lacks `jku`; accepted with the payload exactly when it verifies against `jku`; raises iff decoding fails or verification fails, with that error |
| Jwt.HasRole | plugins/jwt.js:33-37 | false unless `roles` is an array, then membership of the whole entry |
| Jwt.BareRoleNeverMatches | plugins/jwt.js:33-37 | a role name without `:` never matches a list of `role:scope` grants |
| Jwt.Handler | plugins/jwt.js:19-44 | sets `jwt` and `hasRole` only on acceptance; a missing `jku` answers 401 with the error envelope, or raises when `reply.error` is not attached |
| Jwt.Register | plugins/jwt.js:9-13 | declares `hasRole` and `jwt`, and registers the handler on `preHandler` |
| ReplyDecorator.EnvelopeCodeIsStatus | plugins/reply-decorator.js:24-74 | whenever a body is sent its `code` is the status set; only `error` carries a message |
| ReplyDecorator.SuccessNoContent | plugins/reply-decorator.js:24-38 | no body iff the data is falsy, and then status 204 whatever the code; else the code, 200 by default |
| ReplyDecorator.EnvelopeContents | plugins/reply-decorator.js:24-74 | the envelopes carry the status word, the data or message unchanged and the execution time |
| ReplyDecorator.DefaultCodes | plugins/reply-decorator.js:24-74 | default statuses 200, 400 and 500 |
| ReplyDecorator.Success | plugins/reply-decorator.js:24-38 | sets the status and sends the body of `success` |
| ReplyDecorator.Fail | plugins/reply-decorator.js:47-56 | sets the status and sends the body of `fail` |
| ReplyDecorator.Error | plugins/reply-decorator.js:65-74 | sets the status and sends the body of `error` |
| ReplyDecorator.AttachHelpers | plugins/reply-decorator.js:10-14 | the reply gets all three helpers, nothing else changes |
| ReplyDecorator.Register | plugins/reply-decorator.js:5-15 | declares `success`, `fail`, `error`, then registers the `onRequest` hook |
| Sitemap.Normalize | plugins/sitemap.js:209-211 | with the prefix on and no format, the format becomes `/{{language}}`; already normalised options are unchanged |
| Sitemap.CacheDuration | plugins/sitemap.js:219 | `cache ?? 3600000` |
| Sitemap.OptionalFields | plugins/sitemap.js:91-109 | fields in the order lastmod, changefreq, priority; lastmod iff a date and frequency not `always`; changefreq iff a frequency; priority iff truthy |
| Sitemap.BaseUrlOptionalFields | plugins/sitemap.js:91-109 | the text accumulated field by field is the rendering of those fields |
| Sitemap.ZeroPriorityOmitted | plugins/sitemap.js:104-106 | a priority of 0 is not emitted |
| Sitemap.FieldVectors | plugins/sitemap.js:93-106 | a route with frequency `always` renders without its date; a route with priority 0 without its priority |
| Sitemap.XHtmlLink | plugins/sitemap.js:81-83 | `hreflang` is the override when given, else the route's language (`undefined` when unset); `href` is base url plus path |
| Sitemap.Alternates | plugins/sitemap.js:116-118 | self, `x-default`, then each translation in order: k + 2 links |
| Sitemap.UrlEntry | plugins/sitemap.js:111-132 | one url without translations; else the route then each translation, all carrying the same alternates |
| Sitemap.AlternatesAreMutual | plugins/sitemap.js:114-128 | within an entry every url lists every page of the entry among its alternates |
| Sitemap.EntriesMembership | plugins/sitemap.js:143-145 | the global urlset holds exactly the url entries of the configured routes |
| Sitemap.EveryRouteListed | plugins/sitemap.js:143-145 | every configured route's page is in the global urlset |
| Sitemap.GlobalUrlSet | plugins/sitemap.js:139-146 | fails iff there is no dynamic-routes callback; otherwise the entries of the static routes in an xhtml-namespaced urlset |
| Sitemap.GlobalIgnoresDynamic | plugins/sitemap.js:140-143 | what the callback returns does not change the global urlset |
| Sitemap.Unique | plugins/sitemap.js:157-162 | `[...new Set(xs)]`: same elements, no duplicates, in order of first occurrence |
| Sitemap.Languages | plugins/sitemap.js:158-160 | every route's language and its translations' languages; fails at the first route without translations |
| Sitemap.Index | plugins/sitemap.js:154-176 | one sitemap per distinct language in first-occurrence order, its loc from the prefix format, a lastmod iff that language was generated |
| Sitemap.IndexListsEachLanguageOnce | plugins/sitemap.js:156-172 | every language has an entry, and no two entries are for the same language |
| Sitemap.DefaultFormatLoc | plugins/sitemap.js:163-165 | with the default format the index points at `<base>/<language>/sitemap.xml` |
| Sitemap.OnlyFirstPlaceholderFilled | plugins/sitemap.js:163-165 | a format with two placeholders gets only the first one filled |
| Sitemap.FindLanguage | plugins/sitemap.js:45 | `find`: the first translation in the language, None iff there is none |
| Sitemap.PickAll | plugins/sitemap.js:42-46 | the route itself when its language matches, else its translation; fails at the first route without translations |
| Sitemap.Selected | plugins/sitemap.js:52-54 | a route without a translation in the language raises when its url is built, at the first such route |
| Sitemap.PlainUrlsRender | plugins/sitemap.js:52-69 | the `<url>` records of a language urlset render as the code's mapped and joined template: one `<url><loc>` per route, in order, with its optional fields and no `xhtml:link` |
| Sitemap.LanguageUrlSet | plugins/sitemap.js:33-73 | the code's error order (missing translations, missing callback, untranslated route); succeeds iff the callback is set and every route has a page in the language; static urls followed by the dynamic ones, with no xhtml namespace |
| Sitemap.LanguageUrlSetInLanguage | plugins/sitemap.js:42-68 | each static url is a page in the requested language: the route itself whenever its own language matches, otherwise its first translation into that language, which then exists |
| Sitemap.Dispatch | plugins/sitemap.js:185-197 | a language selects its urlset; otherwise the prefix selects the index; otherwise the global urlset |
| Sitemap.SitemapService.Register | plugins/sitemap.js:205-236 | throws without options; keeps the defaulted options; registers `/sitemap.xml`, and `/:language/sitemap.xml` iff the prefix is on |
| Sitemap.SitemapService.GenerateSitemap | plugins/sitemap.js:185-197 | renders the dispatched document; only a successful language urlset records its time |
| Sitemap.SitemapService.Serve | plugins/sitemap.js:217-234 | sets `Content-Type: application/xml`, then sends the dispatched document, recording the time of a successful language urlset, or propagates the error; status and helpers kept |
| Sitemap.GeneratedLanguageGetsLastmod | plugins/sitemap.js:71 | after a language's urlset is generated, the index gives that language a lastmod with that time |

## Left out

- Logging is not modelled, because it is I/O and library configuration:
  - logging.js;
  - the hooks of `addDefaultRequestHooks` (index.js:47-73): the request and response logging on `onRequest` and `onResponse`, and the `onSend` hook that sets a `request-id` header on every reply;
  - the pino stream that `setupLogging` creates, which is represented only as the `Pino` logger value;
  - `request.log.child` in the JWT handler;
  - `console` output in test.js.
- `jose` is not modelled. Header decoding, remote key-set fetching and signature verification are function parameters that return a result or an error.
- The `dynamicRoutes` callback is a parameter: what its promise resolved to, or None for null or undefined. Async and Promise plumbing are not modelled.
- The clock is a parameter. `Date` values and `toISOString` are modelled as the strings they render as.
- Numbers are unbounded integers, or strings where they are only printed, such as `priority`. NaN, fractions and `BigInt` are not modelled.
- `process.exit(13)` is the outcome `Exit(13)` rather than the end of the process.
- `process.env.APP_VERSION` and the host name are parameters.
- `res.cache` is not modelled, because it is a Fastify extension that may be absent. The duration it would be given is `Sitemap.CacheDuration`.
- `addCors`, `start`, the healthcheck route and `fastify(...)` construction are left out. They are calls into Fastify and its plugins. The server appears only as a record of registered hooks, decorators and routes.
- Header values that are arrays, and primitive logger options other than booleans, are not modelled.
- Prototype keys are not modelled. A language named like an `Object.prototype` member would look already generated in `sitemapModifications`.
- `$` patterns in the replacement text of `replace` are not interpreted.
- XML escaping is not modelled, because the code does none.
- String lengths count characters, not UTF-16 code units.
- The sitemap options object is modelled as a value. Aliasing between the caller's object and the plugin's copy is not captured.
- plugins/mssql.js, responses/index.js, the hooks directory and plugins/healthcheck.js are not part of this model.
- Sitemap.LanguageUrlSet: its ensures lists the dynamic urls; the static urls are stated by `Sitemap.LanguageUrlSetInLanguage`. For an untranslated route it states that such a route exists; `Sitemap.Selected` states that the error names the first one.
- Jwt.Handler: when `reply.error` is missing it states only that an error is raised, not the TypeError's text.
