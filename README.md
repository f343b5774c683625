# oRPC contract and client core, modelled in Dafny

oRPC is a contract-first RPC framework. A procedure is declared once as a
contract (route metadata, input and output schemas), bound to a handler on the
server, and called from a client through a *link*, the transport contract. This
project models three pieces of that framework as pure Dafny functions and
proves their properties:

- **Contract procedures** (`contract_procedure.dfy`, module `ContractProcedures`).
  A definition holds optional route metadata, two opaque schemas and optional
  examples. Constructing a procedure is a validating function that returns a
  `Result`. It throws a configuration error when a truthy `successStatus` lies
  outside 200..299, the 2xx class of section 15.3 of RFC 9110; otherwise it
  stores the definition unchanged under the `~type` tag `ContractProcedure`.
  `isContractProcedure` recognises a procedure by shape, not by class. The
  object passed to it is a `JsValue` (`js_values.dfy`, module `JsValues`),
  which covers `typeof`, truthiness, number comparison and the `in` operator.
  The proofs show that the recogniser accepts exactly the records (objects,
  arrays or functions) whose own `~type` is the tag and whose own `~orpc` is a
  non-null object or array with both schema keys. It rejects `null` and every
  primitive. Every constructed procedure passes it.
- **Custom JSON-Schema overrides** (`custom_json_schema.dfy`, module
  `ZodCustomJsonSchema`). A Zod schema definition is a map from keys to
  values. It can hold an override under three private symbols: input, output
  and general. Lookup uses a fixed precedence: the strategy's own slot, then
  the general slot. Annotation copies the definition and sets exactly one
  slot. The proofs cover the precedence rules and the annotate-then-lookup
  round trip. They also show that annotating a slot a lookup does not consult
  leaves that lookup's answer unchanged.
- **Dynamic link** (`dynamic_link.dfy`, module `ClientDynamicLink`). On every
  call, a client link asks its resolver which concrete link to use for
  (path, input, context), then forwards the call unchanged. Links are named by
  identifiers and called through a table. Each call's outcome records the
  steps it took (resolver consulted, link invoked). This lets the model state
  that the resolver runs exactly once per call and that only the resolved link
  is invoked. Failures pass through verbatim, and nothing is cached across
  calls.

`wrappers.dfy` holds the `Option` and `Result` datatypes. `Result` stands for
a thrown error.

The constructor's error message says "The successStatus must be between 200
and 299" (packages/contract/src/procedure.ts:32). The guard in front of it
(packages/contract/src/procedure.ts:31) tests the status for truthiness first,
so `0` and `NaN` pass without the range check and are accepted. The model
follows the guard as written, and `NewContractProcedure`'s contract names both
values explicitly.

## Model

| member | source | states |
|---|---|---|
| `ContractProcedures.NewContractProcedure` | packages/contract/src/procedure.ts:26-36 | construction succeeds exactly when no success status is given or it is in 200..299 (inclusive), `0` or `NaN`; on success the procedure carries tag `ContractProcedure` and stores the definition unchanged; on failure the error is the fixed configuration message |
| `ContractProcedures.RejectsSuccessStatus` | packages/contract/src/procedure.ts:31 | the guard (a truthy status below 200 or above 299) fires exactly when a status is declared and is neither in 200..299 nor `0` nor `NaN` |
| `ContractProcedures.WithoutSuccessStatusAlwaysConstructs` | packages/contract/src/procedure.ts:31 | a definition without a route, or whose route has no success status, always constructs |
| `ContractProcedures.SuccessStatusBoundaries` | packages/contract/src/procedure.ts:31-33 | statuses 200, 201, 299 and 0 construct; 150, 199 and 300 are rejected |
| `ContractProcedures.IsContractProcedure` | packages/contract/src/procedure.ts:47-57 | the structural test chain of lines 48-56, in the same order; only objects, arrays and functions can pass it; characterised by `RecognisesRecords` and `RejectsNonRecords` |
| `ContractProcedures.ProcedureToJs` | packages/contract/src/procedure.ts:26-36 | a constructed procedure is an object with exactly the own fields `~type` (the tag, line 27) and `~orpc` (the definition's object, line 35) |
| `ContractProcedures.RecognisesRecords` | packages/contract/src/procedure.ts:47-57 | for objects, arrays and functions, the recogniser holds iff the own property `~type` is `'ContractProcedure'` and the own property `~orpc` is a non-null object or array holding both `InputSchema` and `OutputSchema` keys |
| `ContractProcedures.RejectsNonRecords` | packages/contract/src/procedure.ts:48-49 | `null` and the modelled primitives (`undefined`, booleans, numbers, strings) are never recognised |
| `ContractProcedures.ConstructedIsRecognised` | packages/contract/src/procedure.ts:26-58 | every successfully constructed procedure, as the object the class builds, passes the structural recogniser |
| `ContractProcedures.DefToJs` | packages/contract/src/procedure.ts:18-24 | a definition's object always holds the given input and output schemas under `InputSchema` and `OutputSchema`; `route`, `inputExample` and `outputExample` are keys exactly when given, holding the given values; it has no other keys |
| `JsValues.TypeOf` | packages/contract/src/procedure.ts:48 | `typeof` is `'object'` exactly for `null`, arrays and plain objects, and `'function'` exactly for functions |
| `JsValues.NamedKeyOfArray` | packages/contract/src/procedure.ts:50-56 | for a key that is not `length` and does not start with a digit, `in` and property access on an array see exactly its named own properties |
| `ZodCustomJsonSchema.FirstPresent` | packages/zod/src/custom-json-schema.ts:8-25 | the result is the value under the first key of the list present in the definition, and nothing exactly when no listed key is present |
| `ZodCustomJsonSchema.GetCustomJsonSchema` | packages/zod/src/custom-json-schema.ts:8-25 | lookup returns the value of the first present key in the strategy's precedence list (own slot, then general slot) |
| `ZodCustomJsonSchema.OwnSlotWins` | packages/zod/src/custom-json-schema.ts:12-18 | with strategy input (output) and the input (output) slot present, lookup returns that slot even if the general slot is set |
| `ZodCustomJsonSchema.FallsBackToGeneral` | packages/zod/src/custom-json-schema.ts:20-22 | without the strategy's own slot, lookup returns the general slot when present |
| `ZodCustomJsonSchema.AbsentWithoutApplicableSlot` | packages/zod/src/custom-json-schema.ts:12-24 | lookup returns undefined exactly when neither the strategy's slot nor the general slot is present |
| `ZodCustomJsonSchema.BothConsultsOnlyGeneral` | packages/zod/src/custom-json-schema.ts:12-22 | with strategy both, definitions that agree on the general slot give the same answer, whatever their input and output slots hold |
| `ZodCustomJsonSchema.SlotFor` | packages/zod/src/custom-json-schema.ts:44-48 | `'input'` writes the input slot, `'output'` the output slot, `'both'` or an omitted strategy the general slot |
| `ZodCustomJsonSchema.CustomJsonSchema` | packages/zod/src/custom-json-schema.ts:27-57 | the new schema has the same class; its definition has the old keys plus the chosen slot, the slot holds the custom value, and every other key keeps its old value |
| `ZodCustomJsonSchema.AnnotateThenLookup` | packages/zod/src/custom-json-schema.ts:8-57 | annotating under a strategy and looking up under the same strategy returns the annotation; an omitted strategy round-trips through lookup with `'both'` |
| `ZodCustomJsonSchema.AnnotateLeavesOtherLookups` | packages/zod/src/custom-json-schema.ts:8-57 | annotating a slot that a lookup does not consult leaves that lookup's answer unchanged |
| `ZodCustomJsonSchema.FirstPresentAgrees` | packages/zod/src/custom-json-schema.ts:8-25 | two definitions that agree on the consulted slots give the same lookup answer |
| `ClientDynamicLink.DynamicLink.Call` | packages/client/src/dynamic-link.ts:19-26 | the resolver is consulted first and exactly once, with the call's path, input and context; a resolver error is the result and no link is called; otherwise exactly the resolved link is called with the same path, input and options, and its output or error is the result |
| `ClientDynamicLink.DynamicLink.CallEach` | packages/client/src/dynamic-link.ts:10-26 | over a sequence of calls through one link, the trace is the calls' own traces joined in order, so the resolver is consulted once per call with that call's path, input and context; each result equals what that call returns on its own: nothing is cached |
| `ClientDynamicLink.DispatchFollowsResolver` | packages/client/src/dynamic-link.ts:21-25 | a call that resolves to link A returns A's result and never invokes any other link |
| `ClientDynamicLink.LinkFailurePropagates` | packages/client/src/dynamic-link.ts:23-25 | an error thrown by the resolved link reaches the caller unchanged |
| `ClientDynamicLink.ResolverFailurePropagates` | packages/client/src/dynamic-link.ts:21 | an error thrown by the resolver reaches the caller unchanged and no link is invoked |
| `ClientDynamicLink.ResolverCallsAppend` | packages/client/src/dynamic-link.ts:21 | resolver consultations of consecutive calls add up |

## Left out

- The `instanceof ContractProcedure` branch of `isContractProcedure`: the model has no class identity. `ConstructedIsRecognised` proves instead that constructed procedures pass the structural check.
- Symbol-keyed properties and the `symbol` and `bigint` primitives are not modelled. `typeof` gives `'symbol'` or `'bigint'` for those primitives, so the test at packages/contract/src/procedure.ts:48 would reject them anyway.
- Prototype chains: `in` is modelled as own-key membership and ignores every prototype, the built-in ones included (`'push' in []` is true in JavaScript, false in the model). `Object.prototype`, `Array.prototype` and `Function.prototype` have none of `~type`, `~orpc`, `InputSchema` and `OutputSchema`, so the recogniser is unaffected; objects that inherit those keys from a custom prototype are not modelled.
- Numbers are real values, `NaN` or an infinity. IEEE-754 rounding is not modelled; it does not affect a comparison against 200 or 299.
- The `HTTPMethod` and `HTTPPath` types of `packages/contract/src/types.ts` are not part of this model. Route methods and paths are plain strings.
- Schemas are opaque values. Parsing and validation belong to external schema libraries.
- `ZodCustomJsonSchema.CustomJsonSchema`: Zod's schema constructor is a foreign call. The model assumes it stores the given definition as it is and keeps the schema's class, identified by name.
- Promises: the resolver and the links are synchronous functions that return a value or an error. A pending promise and the timing of its settlement are not modelled.
- Stateful resolvers and links: the resolver and the link table are pure functions, so a resolver whose answer depends on earlier calls is not modelled.
- `ClientOptions` beyond `context` and `signal` is not part of this model. Options reach the resolved link as one value, so any other field is forwarded unchanged too.
- The middleware executor, router resolver and lazy loader are only re-exported by `packages/server/src/index.ts`. Their sources are not part of this model.
- The HTTP/fetch adapter types, the procedure-client type alias, the OpenAPI keyword list, the UI query-cache type tests, the usage examples and the lint configuration have no runtime behaviour of the modelled core.
