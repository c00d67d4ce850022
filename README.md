# Front door of the script-splitter server, modelled in Dafny

This project models the request-gating and response-selection logic of
`server.js`, the Express entry point of the application. It covers four parts:

- **The CORS origin callback** (`OriginPolicy.OriginCallback`). Inputs: the request's Origin header (`Option<string>`), `NODE_ENV` and `ALLOWED_ORIGIN`. Both environment values are `Option<string>`, because an environment variable is either unset or a string. The output is `Allow` or `Deny("Not allowed by CORS")`.
  - The allow-list is built the way the source builds it: the raw three-entry list, then `filter(Boolean)` (`FilterTruthy`), then `some` (`SomeMatches`).
  - The two hosting-domain regular expressions have two readings that are proved to agree. One is a small backtracking matcher (`DomainRegexTest`). The other is a declarative shape (`DomainOrigin`): `https://`, any run of characters other than the four JavaScript line terminators, `.ondigitalocean.app`, and for the second pattern an optional `/`.
- **The global error handler** (`ErrorBoundary.ErrorResponse`). It maps the mode and an error message to status 500 and a JSON body. Redaction tests `NODE_ENV === 'development'`, while the CORS gate tests `=== 'production'`. So the model keeps the mode as an optional string, not a two-valued enum.
- **Dispatch** (`Pipeline.Dispatch`, `Pipeline.Handle`). The stages live in a constant sequence, in registration order: the four `/api` routers, the static file server, the health check, then the GET catch-all. A recursive walk gives first-claim-wins semantics.
  - The routers, the static file server and the body decoder are opaque. Each one either passes the request on, responds, or fails with an error. Their behaviour is a field of `World`, together with the readability of `build/index.html` and the clock reading used by the health check.
- **The catch-all**. It answers with the entry document. When sending that file fails, it answers 500 with `Error loading application`.

Consequences of the code as written, which the model follows:

- A denied origin is not a transport-level rejection. The callback's error goes to `next(err)` and reaches the error handler at server.js:99-105. In production that handler answers 500 with the redacted message (`Pipeline.DeniedOriginStopsAtGate`).
- The error handler ignores the error's own status. An oversized or malformed body therefore also gets the generic 500, not a payload-too-large status.
- The health check is registered after the routers and the static file server. It is therefore not independent of dispatch: any of those stages can shadow it (`Pipeline.HealthShadowedByEarlierStage`).
- The code has one configuration only. An absent or empty Origin is always allowed, and there is no strict-production variant.

`Handle` is a function of the request, the environment and the `World`. So
the same request under the same conditions always gets the same response.

## Model

| member | source | states |
|---|---|---|
| `Config.IsProduction` | server.js:36 | definition (no contract): NODE_ENV is exactly `production`; `Config.ModesAreDistinct` relates it to `IsDevelopment` |
| `Config.IsDevelopment` | server.js:103 | definition (no contract): NODE_ENV is exactly `development`; `Config.ModesAreDistinct` relates it to `IsProduction` |
| `OriginPolicy.OriginCallback` | server.js:29-64 | definition (no contract): the callback with the list of lines 37-41; characterised by `ProductionDecision`, `AbsentOriginAllowed`, `NonProductionAllowsAll` and `DenyIsCorsError` |
| `OriginPolicy.DecideWith` | server.js:30-63 | definition (no contract): the callback's branches over an arbitrary raw allow-list; characterised by `AbsentOriginAllowed`, `NonProductionAllowsAll` and `AllowListMonotone` |
| `OriginPolicy.RawAllowList` | server.js:37-41 | definition (no contract): the three-entry list before filtering; `EmptyAllowedOriginDropped` states what survives `filter(Boolean)` |
| `OriginPolicy.Truthy` | server.js:42 | definition (no contract): JavaScript truthiness of an entry; `FilterTruthy`'s contract keeps exactly the truthy entries |
| `OriginPolicy.EntryMatches` | server.js:45-50 | definition (no contract): the `some` callback; `SomeMatchesMeaning` lifts it to the whole list |
| `OriginPolicy.SomeMatches` | server.js:44-51 | definition (no contract): `Array.prototype.some`; characterised by `SomeMatchesMeaning` and `SomeMatchesAppend` |
| `OriginPolicy.IsLineTerminator` | server.js:40-41 | definition (no contract): the characters JavaScript's `.` refuses without the `s` flag; `DomainOriginsHaveNoLineTerminators` states that no accepted origin contains one |
| `OriginPolicy.SuffixAnchored` | server.js:40-41 | definition (no contract): `\.ondigitalocean\.app$` or `\.ondigitalocean\.app\/?$`; characterised by `DotStarThenSuffixSound` and `DotStarThenSuffixComplete` |
| `OriginPolicy.DotStarThenSuffix` | server.js:40-41 | definition (no contract): the backtracking `.*` + anchored suffix; `DotStarThenSuffixSound` and `DotStarThenSuffixComplete` characterise it |
| `OriginPolicy.DomainRegexTest` | server.js:40-41 | definition (no contract): `regex.test` for either pattern; `DomainRegexTestMeaning` ties it to `DomainOrigin` |
| `ErrorBoundary.ErrorResponse` | server.js:99-104 | definition (no contract): the error handler's response; characterised by `ErrorResponseShape`, `RedactionHidesError` and `DevelopmentExposesError` |
| `Pipeline.Stages` | server.js:73-87 | definition (no contract): the registration order of the seven stages; `FirstApiRouterDecides`, `UnclaimedGetIsAnswered` and `HealthShadowedByEarlierStage` state what the order decides |
| `Pipeline.Conclude` | server.js:73-104 | definition (no contract): a stage that answers versus one whose `next(err)` goes to the error handler; characterised by `DispatchIsFirstClaim` and `OutcomeSources` |
| `Pipeline.Step` | server.js:73-95 | definition (no contract): one stage on a request; `CatchAllResponse` and `UnclaimedGetIsAnswered` state the two known stages |
| `Pipeline.Dispatch` | server.js:73-87 | definition (no contract): the walk over the stages; `DispatchIsFirstClaim` ties it to `FirstClaim` |
| `Pipeline.Handle` | server.js:69-105 | definition (no contract): gate, decoder, dispatch and error handler for one request; characterised by `DeniedOriginStopsAtGate`, `OutcomeSources` and `ErrorOutcomesRedacted` |
| `OriginPolicy.AbsentOriginAllowed` | server.js:30-33 | an absent or empty Origin header is allowed in every mode, whatever the allow-list holds |
| `OriginPolicy.NonProductionAllowsAll` | server.js:36-63 | when NODE_ENV is anything other than exactly `production` (unset, `development`, any other text), every origin is allowed |
| `OriginPolicy.ProductionDecision` | server.js:36-59 | in production a present origin is allowed iff it equals ALLOWED_ORIGIN or has the hosting-domain shape with an optional trailing `/`; otherwise the result is the CORS error |
| `OriginPolicy.DenyIsCorsError` | server.js:58 | the only denial is `Deny("Not allowed by CORS")` |
| `OriginPolicy.FilterTruthy` | server.js:42 | `filter(Boolean)` keeps exactly the truthy entries (a non-empty string or a pattern) and never lengthens the list |
| `OriginPolicy.FilterTruthyAppend` | server.js:42 | filtering keeps the order: filtering a concatenation gives the concatenation of the filtered parts |
| `OriginPolicy.EmptyAllowedOriginDropped` | server.js:37-42 | an unset or empty ALLOWED_ORIGIN is removed, so only the two patterns remain |
| `OriginPolicy.EmptyAllowedOriginAdmitsOnlyDomain` | server.js:37-58 | with ALLOWED_ORIGIN unset or empty, a present origin is allowed in production iff it has the hosting-domain shape |
| `OriginPolicy.SomeMatchesMeaning` | server.js:44-51 | `some` holds iff some entry of the list matches (string by equality, pattern by `test`, anything else never) |
| `OriginPolicy.SomeMatchesAppend` | server.js:44-51 | `some` over a concatenation is the disjunction over the parts |
| `OriginPolicy.AllowListMonotone` | server.js:37-58 | inserting an entry anywhere in the allow-list can turn Deny into Allow but never Allow into Deny |
| `OriginPolicy.DotStarThenSuffixSound` | server.js:40-41 | whatever the `.*` + suffix matcher accepts is a run free of line terminators followed by the suffix, plus `/` only for the second pattern |
| `OriginPolicy.DotStarThenSuffixComplete` | server.js:40-41 | every run free of line terminators followed by the suffix is accepted by the matcher |
| `OriginPolicy.DomainRegexTestSound` | server.js:40-41 | an origin a pattern accepts has the form `https://` + run + `.ondigitalocean.app` [+ `/`] |
| `OriginPolicy.DomainRegexTestComplete` | server.js:40-41 | every origin of that form is accepted by the pattern |
| `OriginPolicy.DomainRegexTestMeaning` | server.js:40-41 | the matcher accepts exactly the origins of the declarative shape, in both directions |
| `OriginPolicy.DotStarSubsumed` | server.js:40-41 | what the slash-free suffix matcher accepts, the optional-slash one accepts too |
| `OriginPolicy.StrictPatternSubsumed` | server.js:40-41 | every origin the strict pattern (line 40) accepts is also accepted by the optional-slash pattern (line 41) |
| `OriginPolicy.StrictPatternRedundant` | server.js:37-51 | dropping the strict pattern (line 40) from the list leaves the decision unchanged on every input |
| `OriginPolicy.NoSlashEndsInSuffix` | server.js:40 | whatever follows the scheme in a match of the strict pattern ends in `.ondigitalocean.app` |
| `OriginPolicy.BareHostAccepted` | server.js:40-41 | `https://app.ondigitalocean.app` is accepted by both patterns |
| `OriginPolicy.TrailingSlashOnlyOptionalPattern` | server.js:40-41 | the subsumption is proper: `https://app.ondigitalocean.app/` is accepted by the optional-slash pattern (line 41) only |
| `OriginPolicy.DomainOriginsHaveNoLineTerminators` | server.js:40-41 | no origin either pattern accepts contains a line terminator |
| `Config.ModesAreDistinct` | server.js:36 | the production and development sentinels exclude each other, and an unset mode is neither |
| `ErrorBoundary.ErrorResponseShape` | server.js:99-104 | the handler always answers 500 with `error: 'Internal server error'`; the message is the error's own exactly in development and `Something went wrong` otherwise |
| `ErrorBoundary.RedactionHidesError` | server.js:103 | outside development two different errors give identical responses |
| `ErrorBoundary.DevelopmentExposesError` | server.js:103 | in development distinct errors give distinct responses |
| `Pipeline.FirstClaim` | server.js:73-87 | reference index of the first stage that does not call `next()`: every earlier stage passes, and the stage at the index does not |
| `Pipeline.DispatchIsFirstClaim` | server.js:73-87 | dispatch ends exactly at that first stage, and falls through iff every stage passes |
| `Pipeline.FirstClaimWins` | server.js:73-87 | the first stage that does not pass the request on decides the outcome |
| `Pipeline.LaterStagesUnseen` | server.js:73-87 | once a stage has claimed a request, replacing every later stage changes nothing |
| `Pipeline.EarlierRegistrationWins` | server.js:73-76 | of two distinct stages that would both respond, the one registered later never handles the request |
| `Pipeline.FirstApiRouterDecides` | server.js:73-76 | the first `/api` router that responds handles the request, and no stage after it does |
| `Pipeline.DeniedOriginStopsAtGate` | server.js:29-104 | a denied origin reaches no decoder or stage; the response is the redacted 500, whatever the opaque parts would do |
| `Pipeline.OutcomeSources` | server.js:69-105 | every error-boundary response is the generic 500; every stage response is that stage's own answer, given only after the gate allowed the origin and the decoder accepted the body |
| `Pipeline.CatchAllResponse` | server.js:87-95 | the catch-all handles only GET (the HEAD that `app.get` also serves is left out), answering the entry document or, if sending fails, 500 `Error loading application` |
| `Pipeline.UnclaimedGetIsAnswered` | server.js:79-95 | a GET that no opaque stage takes is answered by the health check on `/api/health`, and by the catch-all everywhere else |
| `Pipeline.UnclaimedNonGetFallsThrough` | server.js:82-87 | in the model, a request other than GET that no opaque stage takes leaves the chain unanswered (HEAD, which `app.get` also serves, and the preflight OPTIONS that `cors` answers itself are left out) |
| `Pipeline.HealthShadowedByEarlierStage` | server.js:73-84 | a router or the static server that claims or fails the request first shadows the health check and the catch-all: any stage answer then comes from an opaque stage |
| `Pipeline.ErrorOutcomesRedacted` | server.js:73-104 | outside development every error-boundary outcome is the redacted 500, whether the gate, the decoder, a router or the static server failed |
| `Pipeline.UnsetModePermissiveButRedacted` | server.js:36-104 | with NODE_ENV unset every origin passes the gate, yet every error-boundary outcome, from the decoder or from any stage, is the redacted 500 |
| `Pipeline.DevelopmentShowsFailure` | server.js:70-104 | in development a body-decoder failure's own message is returned |
| `Pipeline.DevelopmentShowsStageFailure` | server.js:73-104 | in development the first router or static server that fails, after every earlier stage passed, has its own message returned |

## Left out

- The Express, `cors`, `express.json` and `express.static` libraries are not part of this model. The routers, the static server and the body decoder (including its 10 MB limit) are opaque results in `World`.
- The route handlers under `api/routes/` are not part of this model; they are opaque stages.
- Express path matching is simplified. The health check matches `GET` with a path of exactly `/api/health`; case-insensitive matching, an optional trailing slash and the implicit HEAD handling of `app.get` are not modelled. The `/api` mount prefix of the routers is inside their opaque results.
- `res.sendFile` is simplified. A readable entry document always gives 200 with the whole file. The 304 answer to a conditional GET and the 206 answer to a Range request are not modelled.
- The `cors` library's own responses are not modelled: preflight `OPTIONS` answers and the response headers it adds.
- Express's final handler is not modelled. It answers a request that leaves the chain unanswered; `Unmatched` stands for that case.
- Logging (server.js:23, 57, 89, 92, 100) is I/O and is left out. Timestamps (server.js:23, 83) are I/O too; the health check's clock reading is the `now` field of `World`, not its real formatting.
- `dotenv`, the `PORT` default, the startup filesystem checks and diagnostics (server.js:107-122, 128-132) and `app.listen` (server.js:124) are process lifecycle and I/O.
- Headers already sent when an error arrives, and an error without a `message` property, are not modelled. An error message is always a string.
- Origins are sequences of Unicode scalar values. JavaScript compares UTF-16 code units, so lone surrogates cannot be represented; this does not change the two patterns, whose characters all lie in the Basic Multilingual Plane.
