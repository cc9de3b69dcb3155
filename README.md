# APIBridge: configuration gate and demo payment tables, modelled in Dafny

This project models two small stateful pieces of the APIBridge repository.

**The tool generator's configuration gate** (`tools_generator/agent.py`, module `ToolState` in
`tool_state.dfy`). A shared `state_data` record holds three strings: the organisation name, the
API base URL and the Swagger JSON document. Three setters overwrite one field each.
`validate_state` checks that every field still holds something after `strip()`. When the check
passes, it builds a new `AgentGenerator` from the organisation name and binds it under `"agent"`.
`write_code_to_tool` appends code to the bound agent's tool file. With no agent bound, it fails
with `KeyError`.

- `StateData` is a class with the three string fields and a nullable `agent`. A null `agent` stands
  for the absent `"agent"` key.
- `AgentGenerator` is a class with the organisation name it was built from and the sequence of
  code fragments appended to its tool file, in order.
- Python's `str.strip()` is modelled as `Strip`, built from `TrimStart` and `TrimEnd`.
  `StripIsInfix` proves that it is the input with its leading and trailing whitespace removed.
  `StripNonEmptyIff` proves that `s.strip() != ""` holds exactly when `s` has a non-whitespace
  character (`HasNonWhitespace`).

**The demo payment server's tables** (`gcp/server.py`, module `PaymentServer` in `payments.dfy`).
`Server` holds `payments_store` and `payouts_store` as `map<string, ...>` fields.

- `initiate_payment` inserts a `PENDING` record.
- `send_payout` inserts a `SENT` record.
- `get_payment_status` answers 404 for an unknown id. Otherwise it returns the stored details,
  with a processing time only for `COMPLETED` records.
- The pure function `StatusOf` specifies the lookup. `StatusAfterInitiate` is the
  initiate-then-query round trip.

Inputs that the source draws from the environment become parameters:

- the `uuid4()` identifiers (`paymentId`, `payoutId`);
- the `datetime.utcnow().isoformat()` timestamps (`now`, `createdAt`).

`amount` is an opaque `Amount` value that is carried and never computed with. The `real` inside it
is only a carrier; it does not model Python's float.
`wrappers.dfy` defines `Option`, `Outcome` and `Result`, used for `None` and for the two
exceptions (`KeyError`, `HTTPException`).

Points of the code that the model keeps as written:

- `validate_state` calls `create_agent` itself when the check passes (tools_generator/agent.py:76-77).
  `root_agent`'s instructions separately tell it to call `create_agent` after a valid result
  (tools_generator/agent.py:177-179, 188). Yet `create_agent` is not among its tools
  (tools_generator/agent.py:195-200). So the only binding path in the code is the one inside
  `validate_state`, and `ValidateState` binds a fresh agent on every successful call.
- Nothing stops a repeated bind (tools_generator/agent.py:76-77). Each successful validation
  replaces the handle under `"agent"`.
- `create_agent` reads `org_name` without any check (tools_generator/agent.py:93-94), so
  `CreateAgent` has no precondition.
- `tool_list` exists only in prompt text (tools_generator/agent.py:144). No manifest is kept by any
  code, so none is modelled.
- In the model a new handle starts with an empty fragment log. `AgentGenerator` is not part of this
  model, so whether the real tool file keeps the fragments written through an earlier handle is
  outside the model.

## Model

| member | source | states |
|---|---|---|
| `ToolState.TrimStart` | tools_generator/agent.py:72 | the result is a suffix of the input; every dropped character is whitespace; a non-empty result starts with a non-whitespace character |
| `ToolState.TrimEnd` | tools_generator/agent.py:72 | the result is a prefix of the input; every dropped character is whitespace; a non-empty result ends with a non-whitespace character |
| `ToolState.Strip` | tools_generator/agent.py:72 | `strip()` never lengthens its input; a non-empty result begins and ends with a non-whitespace character |
| `ToolState.StripIsInfix` | tools_generator/agent.py:72 | `s.strip()` is the infix of `s` left once its leading and trailing whitespace is removed: only whitespace before it and only whitespace after it |
| `ToolState.StripNonEmptyIff` | tools_generator/agent.py:72 | `s.strip() != ""` if and only if `s` contains a non-whitespace character (both directions) |
| `ToolState.AllFilled` | tools_generator/agent.py:71-74 | the `all(... strip() != "" ...)` over the key list is true iff every listed value has a non-whitespace character |
| `ToolState.ConfigIsValid` | tools_generator/agent.py:71-74 | the validity rule holds iff organisation name, base URL and Swagger JSON each contain a non-whitespace character |
| `ToolState.BlankFieldInvalidates` | tools_generator/agent.py:64-74 | one field that is empty or whitespace-only after `strip()` makes validation false, whatever the other two hold |
| `ToolState.AgentGenerator.constructor` | tools_generator/agent.py:93 | a new generator carries the given organisation name and has no appended code |
| `ToolState.AgentGenerator.WriteToTool` | tools_generator/agent.py:100-102 | the code is appended after the existing tool content, which stays a prefix |
| `ToolState.StateData.constructor` | tools_generator/agent.py:16-20 | the initial state has three empty strings and no agent |
| `ToolState.StateData.SetOrgName` | tools_generator/agent.py:22-32 | sets the organisation name to the given string (empty included); base URL, Swagger JSON and agent binding unchanged |
| `ToolState.StateData.SetBaseUrl` | tools_generator/agent.py:36-46 | sets the base URL to the given string; the other two fields and the agent binding unchanged |
| `ToolState.StateData.SetSwaggerJson` | tools_generator/agent.py:50-60 | sets the Swagger JSON to the given string; the other two fields and the agent binding unchanged |
| `ToolState.StateData.CreateAgent` | tools_generator/agent.py:85-96 | a fresh agent built from the current organisation name is bound under "agent", replacing any earlier one, and is the object returned; the configuration is unchanged |
| `ToolState.StateData.ValidateState` | tools_generator/agent.py:63-81 | returns true iff all three fields have a non-whitespace character; never changes the fields; on false the agent binding is left as it was; on true a fresh agent named after the current organisation is bound |
| `ToolState.StateData.WriteCodeToTool` | tools_generator/agent.py:99-129 | with no agent bound, fails with `KeyError("agent")` for every code string; otherwise appends the code after the agent's existing content, keeps the binding and leaves the configuration fields untouched |
| `ToolState.WriteBeforeAnyAgent` | tools_generator/agent.py:118-129 | on a freshly loaded module, writing any code (including `""`) fails with the missing-key error |
| `ToolState.MissingSwaggerBlocks` | tools_generator/agent.py:63-81 | with only organisation name and base URL set, validation is false and a later write still fails with the missing-key error |
| `ToolState.ConfigureValidateWrite` | tools_generator/agent.py:22-129 | after setting all three fields, validation is exactly the validity rule; when it passes, both writes succeed and leave the agent, named after the organisation, holding exactly those two fragments in order; when it fails, both writes fail with the missing-key error |
| `PaymentServer.StatusOf` | gcp/server.py:162-172 | 404 "Payment not found" iff the id is absent; otherwise the stored status, amount, currency and reference under that id; a processing time is present iff the status is `COMPLETED` |
| `PaymentServer.StatusAfterInitiate` | gcp/server.py:135-172 | querying an id just initiated answers `PENDING` with no processing time and the request's amount, currency and reference, whatever the table held before |
| `PaymentServer.Server.constructor` | gcp/server.py:121-122 | both tables start empty |
| `PaymentServer.Server.InitiatePayment` | gcp/server.py:124-147 | stores a `PENDING` record with the request's amount, currency, reference and the creation time under the new id; other payment keys and the payout table unchanged; the response carries the id, `PENDING` and the stored creation time |
| `PaymentServer.Server.GetPaymentStatus` | gcp/server.py:149-172 | the answer is `StatusOf` on the current payment table (404 for an absent id, the stored details otherwise, a processing time iff `COMPLETED`); no modifies clause, so neither table changes |
| `PaymentServer.Server.SendPayout` | gcp/server.py:174-196 | stores a `SENT` record with the request's amount, currency and the send time under the new id; other payout keys and the payment table unchanged; the response carries the id, `SENT` and the stored time |
| `PaymentServer.Server.InitiateThenQuery` | gcp/server.py:135-172 | initiating and then querying the returned id yields `PENDING` with no processing time and the request's details; the query changes no table |
| `PaymentServer.PayoutIsNotAPayment` | gcp/server.py:121-164 | on a fresh server, an id used for a payout is unknown to the payment status endpoint (404) |

## Left out

- Whitespace: `IsSpace` uses the six ASCII whitespace characters (space, `\t`, `\n`, `\r`, `\x0b`, `\x0c`). Python's `str.isspace`, which `strip()` uses, also counts `\x1c`-`\x1f`, `\x85`, `\xa0` and other Unicode spaces. A field made only of those passes validation in this model but fails it in Python.
- The `isinstance(..., str)` test in `validate_state` always holds in the model, because every field is typed `string`.
- `AgentGenerator` internals: `tools_generator/generator/agent_generator.py` is not part of this model. A handle is modelled as an append-only log of the fragments written through it, empty when the handle is built. Content already in the tool file, sharing of one file by several handles, file I/O and `OSError` propagation are not modelled. The `AttributeError` case cannot arise, because every bound agent has `WriteToTool`.
- The LLM agents (`tool_generation_agent`, `root_agent`), their prompts, the `tool_list` manifest described in a prompt, the runners and the async `invoke_agent` entry point: these are foreign library objects and asyncio plumbing with no logic of their own.
- The `print` calls in the setters, the unused `res = tool_generation_agent` and the commented-out write in `validate_state`: they have no effect on state.
- Server wiring: app construction, CORS, environment loading, the constant `/health` and `/` handlers, and `uvicorn` startup.
- Pydantic request validation and response coercion: requests are well-typed values here.
- `uuid4()` and `datetime.utcnow()`: they are parameters, so uniqueness of ids is not assumed. A repeated id overwrites the earlier record, as a Python dict assignment does.
- `amount` is a float in Python. Here it is an opaque `Amount` with no arithmetic, so no floating-point behaviour is modelled.
- Concurrent requests to the server and concurrent setter calls are not modelled. Every operation is one atomic step.
