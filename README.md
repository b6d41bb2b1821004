# GenXAI event sources and GenXBot services, in Dafny

This project models the deterministic core of GenXAI and of its GenXBot application, and proves
properties of that model.

- **Event sources.** Connectors and triggers share one five-state lifecycle (stopped, starting,
  running, stopping, error) with guarded `start`/`stop` and a fan-out `emit` to subscribers
  (`Lifecycle`, `ConnectorBase`, `TriggerBase`). The trigger and connector registries have
  register, unregister, lookup, bulk start/stop and status statistics (`TriggerRegistry`,
  `ConnectorRegistry`, with the bulk loop shared in `Bulk`).
- **Push and timed sources.** The HMAC-signed webhook connector and webhook trigger
  (`Signature`, `WebhookConnector`, `WebhookTrigger`), the FIFO queue trigger (`QueueTrigger`)
  and the cron or interval schedule trigger (`ScheduleTrigger`).
- **Security services.** The approval service and audit log (`Audit`), the resource ACL policy
  engine (`PolicyEngine`) and the default policy set-up (`DefaultPolicies`).
- **Configuration and memory.** The connector configuration store with optional encryption
  (`ConfigStore`) and the in-memory episodic memory (`Episodic`).
- **GenXBot services.**
  - the outbound retry queue with dead letters (`OutboundRetryQueue`);
  - the observability event buffer with hashing, sampling edges, rate limiting, attribute
    sanitising and cursor paging (`ObservabilityEvents`);
  - the command safety policy (`SafetyPolicy`);
  - the run records, run store and approval flow of the orchestrator (`RunSchemas`, `Store`,
    `Orchestrator`);
  - the provider payload adapters (`ProviderAdapters`).
- **Shared helpers.**
  - Python values and strings: `Results`, `Text`, `Json`, `Bytes`;
  - an insertion-ordered dict: `Dicts`;
  - a stable descending sort: `Sequences`.

Objects whose fields the source updates in place are classes with `modifies` frames. Pure
decision logic is functions and lemmas.

Everything outside the program's own logic is an input:

- the HMAC digest;
- the clock, as one reading per call;
- uuid draws, as their hex texts;
- encryption and decryption, and JSON encoding and decoding;
- the role check `has_permission`;
- the abstract `_start`, `_stop` and `validate_config` actions, as the outcome each would have;
- the subscribers' reactions;
- the LLM pipeline's output;
- the channel send function.

## Model

| member | source | states |
|---|---|---|
| Lifecycle.StatusValue | genxai/connectors/base.py:16-23 | each status has one of the five enum values |
| Lifecycle.StatusValueInjective | genxai/triggers/base.py:16-23 | distinct statuses have distinct values |
| Lifecycle.AfterStart | genxai/connectors/base.py:65-81 | `start` changes nothing when running or starting; otherwise it ends running exactly on success and in error exactly on failure |
| Lifecycle.AfterStop | genxai/connectors/base.py:83-98 | `stop` changes nothing when stopped or stopping; otherwise it ends stopped exactly on success and in error exactly on failure |
| Lifecycle.StartThenStop | genxai/triggers/base.py:63-91 | from any status, a successful start then a successful stop ends stopped |
| Lifecycle.StartIdempotent | genxai/triggers/base.py:63-67 | a start after a successful start changes nothing, whatever its actions would do |
| Lifecycle.StopIdempotent | genxai/triggers/base.py:78-82 | a stop after a successful stop changes nothing |
| Lifecycle.MetadataOrEmpty | genxai/connectors/base.py:57 | `metadata or {}` is the metadata when given, otherwise `{}` |
| Lifecycle.FanOut | genxai/connectors/base.py:63 | `asyncio.gather` hands the one event to every subscriber in order and fails exactly when some subscriber fails, with the first such failure |
| ConnectorBase.HealthReport | genxai/connectors/base.py:100-110 | the health status is "ok" exactly when running and "not_running" otherwise; the payload carries the id, the status value and the last error |
| ConnectorBase.DefaultName | genxai/connectors/base.py:41 | `name or connector_id`: a non-empty name is kept, otherwise the id is used |
| ConnectorBase.Connector.constructor | genxai/connectors/base.py:39-46 | a new connector is stopped, with no subscribers, no error and no health check, and its name defaults to its id |
| ConnectorBase.Connector.OnEvent | genxai/connectors/base.py:48-50 | the subscriber is appended and nothing else changes |
| ConnectorBase.Connector.Emit | genxai/connectors/base.py:52-63 | each subscriber receives one event with this connector's id, the payload and the metadata or `{}`; no subscriber means no delivery and no failure; the emit fails exactly when some subscriber fails |
| ConnectorBase.Connector.Start | genxai/connectors/base.py:65-81 | a no-op when running or starting; otherwise `validate_config` runs, then `_start` only if validation passed; the status follows the outcome, the error is cleared on success and recorded on failure, and the failure is raised |
| ConnectorBase.Connector.Stop | genxai/connectors/base.py:83-98 | a no-op when stopped or stopping; otherwise `_stop` runs and the status and error follow its outcome, which is raised |
| ConnectorBase.Connector.HealthCheck | genxai/connectors/base.py:100-110 | returns the report of the current state and stamps the time of the check, changing nothing else |
| TriggerBase.DefaultName | genxai/triggers/base.py:41 | `name or trigger_id`: a non-empty name is kept, otherwise the id is used |
| TriggerBase.Trigger.constructor | genxai/triggers/base.py:39-44 | a new trigger is stopped with no subscribers, and its name defaults to its id |
| TriggerBase.Trigger.OnEvent | genxai/triggers/base.py:46-48 | the subscriber is appended and the status is unchanged |
| TriggerBase.Trigger.Emit | genxai/triggers/base.py:50-61 | each subscriber receives one event with this trigger's id, the payload and the metadata or `{}`; no subscriber means no delivery and no failure; the emit fails exactly when some subscriber fails |
| TriggerBase.Trigger.Start | genxai/triggers/base.py:63-76 | a no-op when running or starting; otherwise `_start` runs, the status follows its outcome and a failure is raised |
| TriggerBase.Trigger.Stop | genxai/triggers/base.py:78-91 | a no-op when stopped or stopping; otherwise `_stop` runs, the status follows its outcome and a failure is raised |
| TriggerBase.StartEmitStop | tests/unit/test_triggers.py:26-42 | a trigger whose hooks do nothing, with one subscriber, is running after `start`, delivers exactly one event with the payload unchanged, and is stopped after `stop` |
| TriggerRegistry.BucketsCount | genxai/triggers/registry.py:72-79 | `get_stats` has a bucket exactly for each status some trigger is in, holding the number of triggers in that status |
| TriggerRegistry.CountsSum | genxai/triggers/registry.py:72-79 | every trigger is counted in exactly one status, so the five counts add up to `total` |
| TriggerRegistry.StartOpSettles | genxai/triggers/registry.py:58-62 | after a start that passed, the trigger is running or starting, and `start_all` skips it or no-ops on it |
| TriggerRegistry.StopOpSettles | genxai/triggers/registry.py:65-69 | after a stop that passed, the trigger is stopped or stopping, and `stop_all` skips it or no-ops on it |
| TriggerRegistry.StartAllRepeat | genxai/triggers/registry.py:58-62 | when every `_start` passes, `start_all` succeeds, leaves every trigger running or starting, and a second `start_all` changes no status and no stats |
| TriggerRegistry.StopAllRepeat | genxai/triggers/registry.py:65-69 | after a `stop_all` that succeeded, every trigger is stopped or stopping, and a second `stop_all` changes no status and no stats |
| TriggerRegistry.TriggerRegistry.Statuses | genxai/triggers/registry.py:17 | there is one status per registered trigger id |
| TriggerRegistry.TriggerRegistry.constructor | genxai/triggers/registry.py:16-22 | the registry starts empty |
| TriggerRegistry.TriggerRegistry.Register | genxai/triggers/registry.py:24-30 | the trigger is stored under its id, replacing any earlier one, which keeps its place |
| TriggerRegistry.TriggerRegistry.Unregister | genxai/triggers/registry.py:32-39 | the id and its trigger go, the rest keep their order; a missing id changes nothing |
| TriggerRegistry.TriggerRegistry.Get | genxai/triggers/registry.py:41-44 | a trigger is returned exactly when one is registered under the id, and it is that one |
| TriggerRegistry.TriggerRegistry.ListAll | genxai/triggers/registry.py:46-49 | the registered triggers, in registration order |
| TriggerRegistry.TriggerRegistry.Clear | genxai/triggers/registry.py:51-55 | the registry becomes empty |
| TriggerRegistry.TriggerRegistry.StartOne | genxai/triggers/registry.py:60-62 | one step of `start_all` changes the status of that trigger only |
| TriggerRegistry.TriggerRegistry.StopOne | genxai/triggers/registry.py:67-69 | one step of `stop_all` changes the status of that trigger only |
| TriggerRegistry.TriggerRegistry.StartAll | genxai/triggers/registry.py:57-62 | in registration order, every trigger not running is started until one raises; that exception is the result and later triggers keep their status |
| TriggerRegistry.TriggerRegistry.StopAll | genxai/triggers/registry.py:64-69 | in registration order, every trigger not stopped is stopped until one raises |
| TriggerRegistry.TriggerRegistry.GetStats | genxai/triggers/registry.py:71-79 | the loop computes the per-status counts of the registered triggers plus `total` |
| ConnectorRegistry.StartOpSettles | genxai/connectors/base.py:65-81 | after a start that passed, the connector is running or starting and starting it again changes nothing; a start that was not a no-op also cleared the last error |
| ConnectorRegistry.StopOpSettles | genxai/connectors/base.py:83-98 | after a stop that passed, the connector is stopped or stopping and stopping it again changes nothing; a stop that was not a no-op also cleared the last error |
| ConnectorRegistry.ConnectorRegistry.Conditions | genxai/connectors/registry.py:16 | there is one status and last error per registered connector id |
| ConnectorRegistry.ConnectorRegistry.constructor | genxai/connectors/registry.py:16 | the registry starts empty |
| ConnectorRegistry.ConnectorRegistry.Register | genxai/connectors/registry.py:18-22 | the connector is stored under its id, replacing any earlier one, which keeps its place |
| ConnectorRegistry.ConnectorRegistry.Unregister | genxai/connectors/registry.py:24-26 | `pop(id, None)`: the id goes, the rest keep their order, and a missing id changes nothing |
| ConnectorRegistry.ConnectorRegistry.Get | genxai/connectors/registry.py:28-30 | a connector is returned exactly when one is registered under the id, and it is that one |
| ConnectorRegistry.ConnectorRegistry.ListAll | genxai/connectors/registry.py:32-34 | the registered connectors, in registration order |
| ConnectorRegistry.ConnectorRegistry.StartOne | genxai/connectors/registry.py:38-39 | one step of `start_all` changes that connector's status and error only |
| ConnectorRegistry.ConnectorRegistry.StopOne | genxai/connectors/registry.py:43-44 | one step of `stop_all` changes that connector's status and error only |
| ConnectorRegistry.ConnectorRegistry.StartAll | genxai/connectors/registry.py:36-39 | in registration order, every connector is started until one raises; that exception is the result and later connectors are untouched |
| ConnectorRegistry.ConnectorRegistry.StopAll | genxai/connectors/registry.py:41-44 | in registration order, every connector is stopped until one raises |
| ConnectorRegistry.StartAllSettles | genxai/connectors/registry.py:36-39 | when every validation and `_start` passes, `start_all` succeeds, every connector ends running or starting, every connector it actually started has no error, and a second `start_all` changes nothing |
| Bulk.Run | genxai/connectors/registry.py:36-44 | a sweep keeps the set of ids, reaches at most every entry, and reaches all of them when it succeeds |
| Bulk.RunStates | genxai/connectors/registry.py:36-39 | each reached entry went through the call exactly once; entries not reached, and ids outside the loop, keep their state |
| Bulk.RunOutcomes | genxai/triggers/registry.py:58-62 | every entry before the last one reached passed, and the sweep ends with the last reached entry's outcome |
| Bulk.RunEffect | genxai/connectors/registry.py:36-44 | the state and outcome facts together: the first exception ends the loop and reaches the caller |
| Bulk.RunTwice | genxai/triggers/registry.py:58-69 | a second sweep after a successful one changes nothing, when the call is a no-op on an entry it has just succeeded on |
| Bulk.RunFixed | genxai/triggers/registry.py:60-62 | a sweep over entries on which the call is a successful no-op leaves everything as it was |
| Bulk.RunAfterFailure | genxai/connectors/registry.py:38-39 | once a sweep fails, later entries change nothing |
| Bulk.RunStep | genxai/connectors/registry.py:38-39 | one more loop iteration after a sweep that has passed so far applies the call to the next entry |
| Signature.ValidateSignature | genxai/connectors/webhook.py:48-56 | without a secret every body passes; with one, a missing or empty signature fails, and otherwise the result is true exactly when the signature equals `"<alg>=<hex digest>"`; a name `hashlib` lacks raises AttributeError, a `hashlib` attribute that is not an HMAC digest (`shake_128`, `new`, ...) raises, and so does a non-ASCII signature |
| Signature.CorrectAcceptedBogusRejected | genxai/triggers/webhook.py:41-50 | with the default algorithm, a body signed with the secret passes and `"sha256=invalid"` fails |
| Signature.Decide | genxai/triggers/webhook.py:59-65 | a source without a secret, or a request without a raw body, is accepted unchecked; otherwise the request is rejected exactly when the configured header's signature does not validate |
| Signature.HeaderValue | genxai/connectors/webhook.py:65 | `headers.get(header_name)` is the header's value when present, otherwise None |
| Signature.HeadersJson | genxai/connectors/webhook.py:72 | the event metadata holds every header, unchanged, under `"headers"` |
| WebhookConnector.ValidateConfig | genxai/connectors/webhook.py:40-46 | the configuration validates exactly when the header name is non-empty and `hasattr(hashlib, alg)` holds, which includes attributes that are not digests |
| WebhookConnector.ValidConfigNeverRaises | genxai/connectors/webhook.py:40-56 | for a validated configuration and an ASCII signature, checking raises exactly when a secret and a non-empty signature are given and the algorithm is not a digest constructor |
| WebhookConnector.ShakeValidatesThenRaises | genxai/connectors/webhook.py:45-54 | `hash_alg="shake_128"` passes `validate_config`, and then every signed check raises |
| WebhookConnector.WebhookConnector.constructor | genxai/connectors/webhook.py:21-32 | a new webhook connector is a stopped connector holding the given secret, header name and algorithm |
| WebhookConnector.WebhookConnector.Start | genxai/connectors/webhook.py:34-46 | `start` runs `validate_config` first; the connector ends running exactly when it passes, and `_start` runs exactly then |
| WebhookConnector.WebhookConnector.Stop | genxai/connectors/webhook.py:37-38 | `stop` cannot fail and ends as a successful stop would |
| WebhookConnector.WebhookConnector.HandleRequest | genxai/connectors/webhook.py:58-73 | a rejected request returns the rejection and emits nothing; an accepted one emits the payload with the headers as metadata to every subscriber and returns the acceptance with the connector id, unless a subscriber raised |
| WebhookConnector.SignedAccepted | tests/unit/test_connector_webhook.py:11-25 | a connector with the secret `"secret"` accepts a body signed with it |
| WebhookConnector.BadSignatureRejected | tests/unit/test_connector_webhook.py:27-33 | the same connector rejects `"sha256=bad"` and emits nothing |
| WebhookTrigger.WebhookTrigger.constructor | genxai/triggers/webhook.py:22-33 | a new webhook trigger is a stopped trigger holding the given secret, header name and algorithm |
| WebhookTrigger.WebhookTrigger.OnEvent | genxai/triggers/base.py:46-48 | the subscriber is appended |
| WebhookTrigger.WebhookTrigger.Start | genxai/triggers/webhook.py:35-36 | `start` cannot fail and ends as a successful start would |
| WebhookTrigger.WebhookTrigger.Stop | genxai/triggers/webhook.py:38-39 | `stop` cannot fail and ends as a successful stop would |
| WebhookTrigger.WebhookTrigger.HandleRequest | genxai/triggers/webhook.py:52-68 | a rejected request returns the rejection and emits nothing; an accepted one emits the payload with the headers as metadata to every subscriber and returns the acceptance with the trigger id, unless a subscriber raised |
| WebhookTrigger.SignedRequestScenario | tests/unit/test_triggers.py:57-81 | a started trigger with a secret and one subscriber accepts a correctly signed request and delivers one event; `"sha256=invalid"` is rejected and delivers none |
| ScheduleTrigger.SelectSchedule | genxai/triggers/schedule.py:49-52 | a given cron expression wins; otherwise the (non-zero) interval is used |
| ScheduleTrigger.TickPayload | genxai/triggers/schedule.py:54-55 | a tick's payload has every key of the static payload with its value, plus `"scheduled_at"`, which the static payload overrides |
| ScheduleTrigger.PayloadOrEmpty | genxai/triggers/schedule.py:29 | `payload or {}` |
| ScheduleTrigger.ScheduleTrigger.Init | genxai/triggers/schedule.py:17-32 | a new schedule trigger is stopped, has no scheduler, and keeps its cron, interval, payload or `{}`, and timezone |
| ScheduleTrigger.ScheduleTrigger.Start | genxai/triggers/schedule.py:37-60 | `_start` passes exactly when APScheduler is present, its timezone is accepted (by the scheduler at line 47 and the cron trigger at line 50) and, for a cron schedule, the cron string is accepted; a missing APScheduler raises ImportError and an unknown timezone raises UnknownTimeZoneError; on success one job runs on the selected schedule |
| ScheduleTrigger.ScheduleTrigger.Stop | genxai/triggers/schedule.py:62-66 | `_stop` shuts the scheduler down and clears it; `stop` cannot fail |
| ScheduleTrigger.ScheduleTrigger.Tick | genxai/triggers/schedule.py:54-57 | without a scheduler a tick does nothing; with one, every subscriber, in subscription order, receives one event of the trigger with the merged tick payload and empty metadata, and the tick fails exactly when a subscriber's reaction fails |
| ScheduleTrigger.Create | genxai/triggers/schedule.py:34-35 | construction raises ValueError exactly when neither a cron expression nor an interval is given |
| ScheduleTrigger.IntervalStartStop | tests/unit/test_triggers.py:114-121 | an interval trigger is running after `start` and stopped after `stop` |
| QueueTrigger.Normalize | genxai/triggers/queue.py:51-55 | a dict message is emitted as it is, anything else under `"message"` |
| QueueTrigger.NormalizeIdempotent | genxai/triggers/queue.py:51-55 | a normalised payload put back on the queue is emitted unchanged |
| QueueTrigger.Normalized | genxai/triggers/queue.py:47-57 | the payloads of a run of messages, one each, in order |
| QueueTrigger.FanOutOf | genxai/triggers/base.py:50-61 | one emit delivers the event to each subscriber once, in subscription order |
| QueueTrigger.FanOutAll | genxai/triggers/queue.py:47-64 | emitting several payloads delivers one event per payload and subscriber |
| QueueTrigger.QueueTrigger.constructor | genxai/triggers/queue.py:21-31 | a new queue trigger is stopped, listens to the given queue or a new empty one, and has no listener task |
| QueueTrigger.QueueTrigger.Enqueue | genxai/triggers/queue.py:66-68 | the message goes to the tail of the queue |
| QueueTrigger.QueueTrigger.Start | genxai/triggers/queue.py:33-35 | a start that runs `_start` creates the listener task; a no-op start creates nothing |
| QueueTrigger.QueueTrigger.Stop | genxai/triggers/queue.py:37-45 | a stop that runs `_stop` cancels and clears the listener task |
| QueueTrigger.QueueTrigger.ListenOnce | genxai/triggers/queue.py:47-64 | an empty queue times out and emits nothing; otherwise the head message leaves the queue, its payload goes to every subscriber, one delivery each in subscription order, the outcome fails exactly when a subscriber raised, and a failing emit does not put the message back |
| QueueTrigger.QueueTrigger.Drain | genxai/triggers/queue.py:47-64 | with a listener, every waiting message is emitted exactly once, in FIFO order, the deliveries are each payload's fan-out to the subscribers in turn, and the queue ends empty |
| QueueTrigger.NormalizedAppend | genxai/triggers/queue.py:47-57 | one more message adds its payload at the end |
| QueueTrigger.EnqueueThenListen | tests/unit/test_triggers.py:84-99 | a started queue trigger with one subscribed handler emits enqueued messages in FIFO order, a dict unchanged and a plain value under `"message"`, and the handler receives both events, the dict first |
| OutboundRetryQueue.Job.constructor | applications/genxbot/backend/app/services/outbound_retry_queue.py:39-46 | a new job carries the given id, channel, text, thread and attempt limit, with no attempts and no error |
| OutboundRetryQueue.ClampAttempts | applications/genxbot/backend/app/services/outbound_retry_queue.py:26 | `max(n, 1)` is at least 1 and at least `n`, and is `n` when `n >= 1` |
| OutboundRetryQueue.ClampBackoff | applications/genxbot/backend/app/services/outbound_retry_queue.py:27 | `max(seconds, 0.0)` is at least 0 and at least `seconds`, and is `seconds` when that is not negative |
| OutboundRetryQueue.DistinctRotate | applications/genxbot/backend/app/services/outbound_retry_queue.py:63-82 | taking the head job off leaves a queue of distinct jobs without it, and putting it back at the tail keeps the jobs distinct |
| OutboundRetryQueue.DistinctAppend | applications/genxbot/backend/app/services/outbound_retry_queue.py:47-48 | appending a new job keeps the jobs distinct |
| OutboundRetryQueue.RetryQueue.constructor | applications/genxbot/backend/app/services/outbound_retry_queue.py:17-29 | attempts clamped to at least 1, backoff to at least 0, nothing queued and no dead letters |
| OutboundRetryQueue.RetryQueue.Enqueue | applications/genxbot/backend/app/services/outbound_retry_queue.py:38-49 | a new job with no attempts and the service's attempt limit goes to the tail; the dead letters do not change |
| OutboundRetryQueue.RetryQueue.TakeSnapshot | applications/genxbot/backend/app/services/outbound_retry_queue.py:51-57 | the queue length, the number of dead letters and a copy of the dead-letter list |
| OutboundRetryQueue.RetryQueue.Step | applications/genxbot/backend/app/services/outbound_retry_queue.py:59-82 | with an empty queue nothing happens; otherwise the head job is sent and the status is the channel's answer at this iteration: a `"sent:"` status drops it, any other status counts an attempt and records the status, then the job is dead-lettered once it has used its attempts and requeued at the tail otherwise; no other job changes |
| OutboundRetryQueue.RetryScenario | applications/genxbot/backend/app/services/outbound_retry_queue.py:59-82 | with two attempts and a channel that always fails, the job is requeued once and then dead-lettered with two attempts and the last status; a channel answering `"sent:…"` leaves nothing queued or dead |
| OutboundRetryQueue.TransientFailure | applications/genxbot/backend/app/services/outbound_retry_queue.py:70-82 | a channel that fails the first send and accepts the retry: the job is requeued once with the failure recorded, then leaves the queue without becoming a dead letter |
| ProviderAdapters.AsStr | applications/genxbot/backend/app/services/connectors.py:20-24 | `None` stays `None`, anything else becomes text, and text stays as it is |
| ProviderAdapters.AsDict | applications/genxbot/backend/app/services/connectors.py:31-34 | a `.get` on a dict reads its entries; on anything else it raises AttributeError |
| ProviderAdapters.TruthyText | applications/genxbot/backend/app/services/connectors.py:36 | a truthy number never prints as the empty text, so `str(...) or None` keeps it |
| ProviderAdapters.ParseGitHub | applications/genxbot/backend/app/services/connectors.py:27-54 | a parsed GitHub event names `"github"`, keeps the event type and the raw payload, and copies `action` into the metadata |
| ProviderAdapters.GitHubNormalizes | applications/genxbot/backend/app/services/connectors.py:30-54 | a well-shaped payload parses: the resource id is the pull request's number as text, else the issue's, else None; summary and text prefer the pull request; the actor is the sender's login as text; the source is the repository's full name |
| ProviderAdapters.GitHubRejectsNonDictPullRequest | applications/genxbot/backend/app/services/connectors.py:32-36 | a pull request that is present but not a dict raises AttributeError |
| ProviderAdapters.ParseJira | applications/genxbot/backend/app/services/connectors.py:57-81 | a parsed Jira event names `"jira"`, keeps the event type and the raw payload |
| ProviderAdapters.JiraNormalizes | applications/genxbot/backend/app/services/connectors.py:60-81 | a well-shaped payload parses: actor from `accountId`, source the project key else its name, resource the issue key, summary and description from the fields, status name and issue id in the metadata |
| ProviderAdapters.ParseSlack | applications/genxbot/backend/app/services/connectors.py:84-104 | a parsed Slack event names `"slack"`, keeps the raw payload and has the fixed summary |
| ProviderAdapters.SlackReadsEvent | applications/genxbot/backend/app/services/connectors.py:87-104 | the fields come from `payload["event"]` when present, else the payload itself; actor, channel and timestamp are text or None; the team id comes from the payload |
| ProviderAdapters.SlackRejectsNonDictEvent | applications/genxbot/backend/app/services/connectors.py:88-93 | an `event` entry that is not a dict raises |
| ProviderAdapters.WebhookEventType | applications/genxbot/backend/app/services/connectors.py:131-136 | the normalised event type is never empty, and is the argument when that is non-empty |
| ProviderAdapters.ParseWebhook | applications/genxbot/backend/app/services/connectors.py:126-175 | the generic adapter never raises; its event names `"webhook"`, keeps the raw payload, and has the fallback event type and the merged metadata |
| ProviderAdapters.WebhookEventTypeFallback | applications/genxbot/backend/app/services/connectors.py:131-136 | the event type falls back in order: the argument, the payload's `event_type`, its `type`, then `"webhook.event"` |
| ProviderAdapters.WebhookMetadataEntries | applications/genxbot/backend/app/services/connectors.py:155-163 | the metadata keeps every entry of the payload's dict `metadata` except the three keys set over it; `provider` and `webhook_id` are copied; `headers` is kept only when it is a dict |
| ProviderAdapters.WebhookIgnoresNonDictActor | applications/genxbot/backend/app/services/connectors.py:127 | an `actor` that is not a dict reads as `{}` |
| ProviderAdapters.AdapterFor | applications/genxbot/backend/app/services/connectors.py:178-183 | exactly the four names have an adapter, each named by its key |
| ProviderAdapters.Parse | applications/genxbot/backend/app/services/connectors.py:16-18 | every adapter's event names that adapter and carries the payload unchanged |
| ProviderAdapters.ParseConnectorEvent | applications/genxbot/backend/app/services/connectors.py:186-196 | an unknown name raises ValueError "Unsupported connector: …"; a known one is parsed by its adapter, and the event names that adapter and carries the payload |
| ProviderAdapters.UnsupportedMessageMentions | applications/genxbot/backend/tests/test_connectors.py:111-117 | the error for an unknown connector mentions "Unsupported connector" |
| ProviderAdapters.PaddedNameDispatches | applications/genxbot/backend/app/services/connectors.py:192 | whitespace around a known name selects the same adapter |
| ProviderAdapters.MixedCaseNameDispatches | applications/genxbot/backend/app/services/connectors.py:192 | `"GitHub"` selects the GitHub adapter |
| ObservabilityEvents.Clamp01 | applications/genxbot/backend/app/services/observability_events.py:32 | `min(max(r, 0.0), 1.0)` lies in [0, 1] and leaves a rate already in range unchanged |
| ObservabilityEvents.Fnv1aShortVectors | applications/genxbot/backend/app/services/observability_events.py:66-72 | the hash of `""` is the offset basis 0x811c9dc5 and of `"a"` is 0xe40c292c, the published FNV-1a vectors |
| ObservabilityEvents.Fnv1aSnoc | applications/genxbot/backend/app/services/observability_events.py:69-71 | hashing one more byte is one xor-and-multiply step, modulo 2^32, on the hash so far |
| ObservabilityEvents.Fnv1aFoobar | applications/genxbot/backend/app/services/observability_events.py:66-72 | the hash of `"foobar"` is 0xbf9cf968, the published FNV-1a vector |
| ObservabilityEvents.StableHash | applications/genxbot/backend/app/services/observability_events.py:66-72 | the loop's result is the 32-bit FNV-1a hash of the text's UTF-8 bytes, an unsigned number below 2^32 |
| ObservabilityEvents.CleanValue | applications/genxbot/backend/app/services/observability_events.py:60-63 | ints, bools and `None` pass unchanged; any other value becomes a prefix of its `str` at most the value limit long |
| ObservabilityEvents.CleanedSize | applications/genxbot/backend/app/services/observability_events.py:55-63 | the clean dict has no more entries than source keys and no key longer than the key limit |
| ObservabilityEvents.CleanedKeysSound | applications/genxbot/backend/app/services/observability_events.py:56-59 | every clean key is the cut-down form of some source key |
| ObservabilityEvents.CleanedKeysComplete | applications/genxbot/backend/app/services/observability_events.py:56-59 | every source key's cut-down form is a clean key |
| ObservabilityEvents.CleanedLastWins | applications/genxbot/backend/app/services/observability_events.py:59-63 | when cut-down keys collide, the value kept is the cleaned value of the last source key among them |
| ObservabilityEvents.CleanedValues | applications/genxbot/backend/app/services/observability_events.py:62-63 | every string value in the clean dict is at most the value limit long |
| ObservabilityEvents.SanitizedBounds | applications/genxbot/backend/app/services/observability_events.py:52-64 | no entries for missing or empty attributes; at most `max_attributes` entries, each key cut from one of the first `max_attributes` source keys, keys and string values within their limits |
| ObservabilityEvents.Sanitized | applications/genxbot/backend/app/services/observability_events.py:52-64 | the sanitised attributes form a well-formed dict (no key twice); their bounds are `SanitizedBounds` |
| ObservabilityEvents.SampleRate | applications/genxbot/backend/app/services/observability_events.py:75-77 | a `category.event` override wins, then a `category` override, then the default rate |
| ObservabilityEvents.SampledInEdges | applications/genxbot/backend/app/services/observability_events.py:78-81 | a rate of 1 keeps every event and a rate of 0 drops every event, whatever the seed |
| ObservabilityEvents.SampledInMonotone | applications/genxbot/backend/app/services/observability_events.py:78-84 | raising the rate never drops an event that the lower rate kept |
| ObservabilityEvents.SampleSeedsDiffer | applications/genxbot/backend/app/services/observability_events.py:82 | two emits with different counters hash different seeds |
| ObservabilityEvents.RateStep | applications/genxbot/backend/app/services/observability_events.py:86-96 | a new minute starts the counts afresh; the event is limited exactly when its key already reached the limit, and otherwise its count goes up by one |
| ObservabilityEvents.RateStepBounded | applications/genxbot/backend/app/services/observability_events.py:86-96 | counts stay between 1 and the per-minute limit, so no key gets through more than the limit in a minute |
| ObservabilityEvents.Filter | applications/genxbot/backend/app/services/observability_events.py:123-132 | the events kept are exactly those matching every given filter, in arrival order |
| ObservabilityEvents.FilterNone | applications/genxbot/backend/app/services/observability_events.py:106-141 | with no filter given every event is kept |
| ObservabilityEvents.Last | applications/genxbot/backend/app/services/observability_events.py:224 | `s[-n:]` is the last `min(n, len(s))` items |
| ObservabilityEvents.LastAppend | applications/genxbot/backend/app/services/observability_events.py:30 | a bounded deque that drops its oldest on each append holds the last `maxlen` items of everything appended |
| ObservabilityEvents.CursorOffset | applications/genxbot/backend/app/services/observability_events.py:250-255 | a missing, empty or unparsable cursor means offset 0, and a numeral of more than 4300 digits, which `int()` refuses, is unparsable; otherwise the offset is `max(int(cursor), 0)` |
| ObservabilityEvents.PageAt | applications/genxbot/backend/app/services/observability_events.py:248-259 | the page is the filtered events newest first from the offset, at most `max(limit, 1)` of them; the total is the filtered count; a next cursor exists exactly when events remain, and is `str(offset + lim)` |
| ObservabilityEvents.PageOf | applications/genxbot/backend/app/services/observability_events.py:248-259 | a page counts every filtered event, holds at most `max(limit, 1)` of them, and without a cursor starts with the newest |
| ObservabilityEvents.NewestWindow | applications/genxbot/backend/app/services/observability_events.py:248 | a slice of the reversed list counts back from the end of the filtered list |
| ObservabilityEvents.Reversed | applications/genxbot/backend/app/services/observability_events.py:248 | `reversed` puts the element `i` from the end at position `i` |
| ObservabilityEvents.PageContinues | applications/genxbot/backend/app/services/observability_events.py:256-258 | following the next cursor resumes exactly where the page ended, for every cursor `str()` can print (at most 4300 digits) |
| ObservabilityEvents.CursorOfNat | applications/genxbot/backend/app/services/observability_events.py:253 | the cursor `str(n)` parses back to offset `n` when it has at most 4300 digits, and stands for offset 0 when it is longer |
| ObservabilityEvents.EventService.constructor | applications/genxbot/backend/app/services/observability_events.py:19-40 | every setting is clamped into range as the constructor does; buffer, counter and rate window start empty |
| ObservabilityEvents.EventService.IsSampledIn | applications/genxbot/backend/app/services/observability_events.py:74-84 | the decision is the sampling test of the event's rate on the seed built from category, event, run, trace and emit counter |
| ObservabilityEvents.EventService.RateLimited | applications/genxbot/backend/app/services/observability_events.py:86-96 | the decision and the new counts are those of `RateStep` at the given minute; the buffer and counter are untouched |
| ObservabilityEvents.EventService.SanitizeAttributes | applications/genxbot/backend/app/services/observability_events.py:52-64 | the loop builds exactly the sanitised dict `Sanitized` describes |
| ObservabilityEvents.EventService.Emit | applications/genxbot/backend/app/services/observability_events.py:143-201 | the counter goes up; a sampled-out event touches nothing else; a rate-limited one only updates the counts; otherwise the event with sanitised attributes is returned and the buffer becomes the last `max_entries` of the old buffer plus it |
| ObservabilityEvents.EventService.ListEvents | applications/genxbot/backend/app/services/observability_events.py:203-224 | the newest `max(limit, 1)` filtered events, oldest first |
| ObservabilityEvents.EventService.PageEvents | applications/genxbot/backend/app/services/observability_events.py:226-259 | one page of the filtered buffer from the cursor, as `PageAt` states |
| ObservabilityEvents.EventService.Clear | applications/genxbot/backend/app/services/observability_events.py:306-308 | the buffer is emptied; counter and rate window stay |
| ObservabilityEvents.BufferBounded | applications/genxbot/backend/app/services/observability_events.py:29-30 | the buffer never holds more than `max(max_entries, 1)` events |
| Audit.AuditStore.constructor | genxai/security/audit.py:38-41 | a new database holds no events and no requests |
| Audit.AuditLog.constructor | genxai/security/audit.py:198-200 | a new log loads the stored events |
| Audit.AuditLog.Record | genxai/security/audit.py:202-204 | the event goes last, in memory and in the store, and the stored requests are untouched |
| Audit.AuditLog.ListEvents | genxai/security/audit.py:206-208 | the stored events are reloaded and returned in order |
| Audit.AuditLog.Clear | genxai/security/audit.py:210-212 | no events remain, in memory or in the store |
| Audit.IdNumberOfRequestId | genxai/security/audit.py:225-229 | `int(request_id.split("_", 1)[1])` gives back `N` for `"approval_N"` when `N` has at most 4300 digits, and refuses a longer `N` |
| Audit.CounterStep | genxai/security/audit.py:225-229 | one more id raises the counter to its number when that is larger |
| Audit.MaxNumberBounds | genxai/security/audit.py:223-231 | the inferred counter is at least the number of every `"approval_N"` id |
| Audit.MaxNumberAttained | genxai/security/audit.py:223-231 | a counter above 0 is the number of some id, so the counter is the maximum |
| Audit.MaxNumberAppend | genxai/security/audit.py:225-229 | one more id at the end counts like any other |
| Audit.RequestIdInjective | genxai/security/audit.py:235 | different counter values give different request ids |
| Audit.CounterOfUnusedAfter | genxai/security/audit.py:221-231 | the counter inferred at start leaves unused every later `"approval_N"` id that `int()` can read back (at most 4300 digits) |
| Audit.UnusedAfterPut | genxai/security/audit.py:233-244 | storing a request under the next id keeps the readable ids after it unused |
| Audit.CounterOfNext | genxai/security/audit.py:233-235 | taking the next id after the largest number raises the largest number by one, while that number has at most 4300 digits |
| Audit.FirstRequestIds | genxai/security/audit.py:235 | the first three ids are `"approval_1"`, `"approval_2"` and `"approval_3"` |
| Audit.ApprovalService.constructor | genxai/security/audit.py:218-221 | a new service loads the stored requests and infers its counter from their ids |
| Audit.ApprovalService.InferCounter | genxai/security/audit.py:223-231 | the loop computes the largest `N` over the ids `"approval_N"`, or 0; an id whose `N` does not parse, including one of more than 4300 digits, is skipped |
| Audit.ApprovalService.Submit | genxai/security/audit.py:233-244 | the counter goes up by one and a pending request under `"approval_{counter}"` is stored in memory and in the store; that id was not in use before whenever the counter has at most 4300 digits |
| Audit.ApprovalService.SetStatus | genxai/security/audit.py:246-258 | the request under the id gets the new status and is saved; an unknown id changes nothing and returns None |
| Audit.ApprovalService.Approve | genxai/security/audit.py:246-251 | the request becomes `"approved"` and is saved; an unknown id returns None and changes nothing |
| Audit.ApprovalService.Reject | genxai/security/audit.py:253-258 | the request becomes `"rejected"` and is saved; an unknown id returns None and changes nothing |
| Audit.ApprovalService.Get | genxai/security/audit.py:260-261 | a request is returned exactly when one is stored under the id, and it is that one |
| Audit.ApprovalService.Clear | genxai/security/audit.py:263-266 | no requests remain, in memory or in the store, and the counter is back at 0 |
| Audit.SubmitThree | genxai/security/audit.py:233-244 | three submits in a row take three consecutive ids, whatever the counter starts from |
| Audit.ThreeSubmits | tests/unit/test_default_policies.py:8-13 | on a fresh store, three submits are numbered `approval_1`, `approval_2`, `approval_3` |
| Audit.Restart | tests/unit/test_audit_persistence.py:8-32 | a recorded event and a submitted request survive a restart on the same store: the event is listed last, the request is found pending under `approval_{c + 1}` for the inferred counter `c`, and the next id is `approval_{c + 2}` while `c + 1` has at most 4300 digits |
| PolicyEngine.AccessRule.constructor | genxai/security/policy_engine.py:23-30 | a rule holds the given permissions, user list, approval flag and request id |
| PolicyEngine.Verdict | genxai/security/policy_engine.py:51-73 | on a resource with a rule, the check passes exactly when the approval (if needed) is approved, the user is listed (if a non-empty list is given) and the permission is in the rule; the first check that fails raises its own message |
| PolicyEngine.PendingDeniesEveryone | genxai/security/policy_engine.py:59-63 | a rule that needs an approval denies every user while its request is not approved |
| PolicyEngine.PolicyEngine.constructor | genxai/security/policy_engine.py:36-37 | a new engine has no rules |
| PolicyEngine.PolicyEngine.AddRule | genxai/security/policy_engine.py:39-40 | the rule is stored under the resource id, replacing any earlier one |
| PolicyEngine.PolicyEngine.Check | genxai/security/policy_engine.py:42-73 | without a rule the user's own permission decides; with a rule that needs an approval and has no request yet, a pending request is submitted and its id stored on the rule; the verdict is then taken on the rule as it stands; no other rule changes |
| PolicyEngine.PolicyEngine.CheckRule | genxai/security/policy_engine.py:51-73 | on a resource with a rule: the approval step, then the verdict on the updated rule |
| PolicyEngine.FirstCheck | tests/unit/test_policy_engine_approvals.py:10-23 | the first check on a rule that needs an approval and has none is denied and submits a request, whose id the rule now carries |
| PolicyEngine.CheckAfterApproval | tests/unit/test_policy_engine_approvals.py:25-29 | once the rule's request is approved, a listed user's check for a listed permission passes |
| PolicyEngine.ApprovalFlow | tests/unit/test_policy_engine_approvals.py:10-29 | denied first with a new request `approval_{counter+1}`; once that request is approved, the same check passes |
| PolicyEngine.NoRuleUsesRole | tests/unit/test_policy_engine.py:9-12 | a resource without a rule is decided by the user's role alone |
| PolicyEngine.AclDenies | tests/unit/test_policy_engine.py:15-24 | a user outside a non-empty `allowed_users` set is denied, whatever their role |
| DefaultPolicies.AddDefault | genxai/security/default_policies.py:13-22 | one block: a pending request by `"system"` under the next id, then the rule that needs it under the resource id |
| DefaultPolicies.RegisterDefaultPolicies | genxai/security/default_policies.py:8-44 | three submits in order for `tool:calculator`, `agent:finance_agent` and `workflow:workflow`, each followed by its rule, which carries the matching id; the requests are pending and no other rule changes |
| DefaultPolicies.DefaultDeniesUntilApproved | genxai/security/default_policies.py:16-21 | until its request is approved, a default rule denies every user and every permission |
| DefaultPolicies.DefaultAfterApproval | genxai/security/default_policies.py:16-21 | once approved, a default rule admits exactly `"admin"` with its one permission |
| RunSchemas.RunSession.constructor | applications/genxbot/backend/app/schemas.py:54-65 | a session holds exactly the given id, goal, repository, status, plan, timeline, artifacts, pending actions, memory summary and timestamps |
| Store.RunStore.constructor | applications/genxbot/backend/app/services/store.py:14-15 | a new store holds no runs |
| Store.RunStore.Get | applications/genxbot/backend/app/services/store.py:21-22 | a run is found exactly when one is filed under the id, and it is that run, whose own id is the key |
| Store.RunStore.Create | applications/genxbot/backend/app/services/store.py:17-19 | the run is filed under its id, replacing any run with that id; every other id keeps its run; the run is returned |
| Store.RunStore.Update | applications/genxbot/backend/app/services/store.py:24-26 | the same filing as `create`: the entry for the run's id is replaced and the others stay |
| Store.RunStore.ListRuns | applications/genxbot/backend/app/services/store.py:28-29 | every stored run appears once, in the order the ids were first filed |
| Store.UpdateSameRun | applications/genxbot/backend/app/services/store.py:24-26 | updating with the run already filed under its id leaves the store as it was, order included |
| SafetyPolicy.RequiresApproval | applications/genxbot/backend/app/services/policy.py:25-30 | edits always need approval, and so do action types other than edit and command; a command needs none exactly when it is present, non-empty and safe |
| SafetyPolicy.SafeIgnoresPadding | applications/genxbot/backend/app/services/policy.py:21-23 | whitespace around a command does not change whether it is safe |
| SafetyPolicy.PytestIsSafe | applications/genxbot/backend/app/services/policy.py:11-23 | `pytest -q` starts with a listed prefix and is safe |
| SafetyPolicy.PaddedPytestIsSafe | applications/genxbot/backend/app/services/policy.py:22-23 | `pytest -q` with whitespace around it is still safe |
| SafetyPolicy.OthersAreUnsafe | applications/genxbot/backend/app/services/policy.py:11-23 | `rm -rf /` starts with no listed prefix and is not safe |
| SafetyPolicy.EmptyIsUnsafe | applications/genxbot/backend/app/services/policy.py:11-23 | the empty command is not safe, because every listed prefix is non-empty |
| Orchestrator.PlanSteps | applications/genxbot/backend/app/services/orchestrator.py:180-185 | the four plan steps, in order, each pending and not needing approval, with the step ids of the first four uuid draws |
| Orchestrator.BaseActions | applications/genxbot/backend/app/services/orchestrator.py:186-198 | two pending, not-yet-safe actions: the `pytest -q` command first, then the edit |
| Orchestrator.WithPatchDraft | applications/genxbot/backend/app/services/orchestrator.py:260-265 | an empty executor output leaves the actions as they are; otherwise only the edit's patch changes, to the draft header followed by at most 1200 characters of that output |
| Orchestrator.SafeFlagIffNoApproval | applications/genxbot/backend/app/services/orchestrator.py:267-272 | the safe flag `create_run` sets and `requires_approval` never disagree: an action is marked safe exactly when it needs no approval |
| Orchestrator.GateActions | applications/genxbot/backend/app/services/orchestrator.py:267-275 | each action gets its safe flag and nothing else of it changes; the run awaits approval if some action needs one and runs otherwise, that is, it runs exactly when every action is safe |
| Orchestrator.ReviewArtifacts | applications/genxbot/backend/app/services/orchestrator.py:300-307 | a review artifact is added exactly when the pipeline ran and produced a review |
| Orchestrator.Bullets | applications/genxbot/backend/app/services/orchestrator.py:296 | the joined list starts with the first title's bullet |
| Orchestrator.PlanText | applications/genxbot/backend/app/services/orchestrator.py:291-298 | the plan artifact holds the pipeline's plan text when the pipeline ran, and otherwise the bulleted plan titles, first title first |
| Orchestrator.DecisionEvent | applications/genxbot/backend/app/services/orchestrator.py:331-341 | the decision record is by the user, named `approval_decision`, names the action and its new status, and ends with the comment or `n/a` |
| Orchestrator.ExecutedEvent | applications/genxbot/backend/app/services/orchestrator.py:343-351 | the execution record is by the executor, named `action_executed`, and names the action type and ends with its description |
| Orchestrator.FindAction | applications/genxbot/backend/app/services/orchestrator.py:327 | the position found is the first action with the id; nothing is found exactly when no action has it |
| Orchestrator.ResultArtifact | applications/genxbot/backend/app/services/orchestrator.py:352-362 | an executed command yields a command-output artifact and an executed edit a diff |
| Orchestrator.EventNames | applications/genxbot/backend/app/services/orchestrator.py:332-373 | the names list has one entry per timeline event, its event name |
| Orchestrator.Kinds | applications/genxbot/backend/app/services/orchestrator.py:352-380 | the kinds list has one entry per artifact, its kind |
| Orchestrator.Resolved | applications/genxbot/backend/app/services/orchestrator.py:331-362 | the chosen action becomes `executed` when approved and `rejected` otherwise; the others, the status and the timestamp stay |
| Orchestrator.Concluded | applications/genxbot/backend/app/services/orchestrator.py:364-384 | the run is completed when every action is executed or rejected and awaits approval otherwise; it is stamped now and its actions stay |
| Orchestrator.Decide | applications/genxbot/backend/app/services/orchestrator.py:327-329 | an action id the run does not propose leaves the run as it is |
| Orchestrator.DecideActions | applications/genxbot/backend/app/services/orchestrator.py:327-384 | a decision changes the first action with the id, and only it; the run is completed exactly when every action is resolved, and awaits approval otherwise |
| Orchestrator.ExtendsChain | applications/genxbot/backend/app/services/orchestrator.py:332-380 | two appends in a row add what each added, in order |
| Orchestrator.EventNamesAppend | applications/genxbot/backend/app/services/orchestrator.py:332-373 | the names of two timelines joined are their names joined |
| Orchestrator.KindsAppend | applications/genxbot/backend/app/services/orchestrator.py:352-380 | the kinds of two artifact lists joined are their kinds joined |
| Orchestrator.ResolvedLog | applications/genxbot/backend/app/services/orchestrator.py:332-362 | the first half appends the decision event, then the execution event and one result artifact on approval |
| Orchestrator.ConcludedLog | applications/genxbot/backend/app/services/orchestrator.py:364-380 | the second half appends the completion event and the run summary exactly when the run is completed |
| Orchestrator.DecideLog | applications/genxbot/backend/app/services/orchestrator.py:331-384 | a decision keeps the timeline and artifacts and appends, in order, the decision event, the execution event and the result on approval, then the completion event and the summary when the run completes |
| Orchestrator.ResolvedStaysCompleted | applications/genxbot/backend/app/services/orchestrator.py:364-366 | once every action is resolved, any further decision leaves the run completed |
| Orchestrator.LastDecisionCompletes | applications/genxbot/backend/app/services/orchestrator.py:364-366 | deciding the one action still open completes the run, whichever way it is decided |
| Orchestrator.OpenActionKeepsAwaiting | applications/genxbot/backend/app/services/orchestrator.py:381-382 | while another action is pending or approved, a decision leaves the run awaiting approval |
| Orchestrator.BaseActionsGated | applications/genxbot/backend/app/services/orchestrator.py:267-272 | the `pytest -q` command is marked safe, the edit is not, so the gate closes |
| Orchestrator.ProposeActions | applications/genxbot/backend/app/services/orchestrator.py:260-274 | the command comes out safe and otherwise unchanged, the edit keeps its drafted patch, and the run awaits approval |
| Orchestrator.CreatedState | applications/genxbot/backend/app/services/orchestrator.py:200-313 | a created run awaits approval of its two pending actions, the command safe and the edit not; its timeline holds four events and its artifacts start with the plan |
| Orchestrator.NewRun | applications/genxbot/backend/app/services/orchestrator.py:200-218 | the new session has a `run_` id, the given goal and repository, the created state, the four plan steps and the memory summary |
| Orchestrator.GenXBotOrchestrator.constructor | applications/genxbot/backend/app/services/orchestrator.py:48-50 | the orchestrator keeps the given store |
| Orchestrator.GenXBotOrchestrator.CreateRun | applications/genxbot/backend/app/services/orchestrator.py:179-314 | the new run is filed in the store under its id, replacing nothing else, and is the created run |
| Orchestrator.GenXBotOrchestrator.DecideAction | applications/genxbot/backend/app/services/orchestrator.py:322-385 | `None` exactly for a run id the store does not hold; otherwise the stored run object, whose state becomes `Decide` of its old state, with plan, memory summary and creation time kept and the store's filing unchanged |
| Orchestrator.ApplyDecision | applications/genxbot/backend/app/services/orchestrator.py:327-385 | the run changes exactly when it proposes an action with the id, and its state becomes `Decide` of its old state |
| Orchestrator.RecordDecision | applications/genxbot/backend/app/services/orchestrator.py:331-362 | the run's state becomes `Resolved` of its old state |
| Orchestrator.Conclude | applications/genxbot/backend/app/services/orchestrator.py:364-384 | the run's state becomes `Concluded` of its old state |
| Orchestrator.ApproveFirstAction | applications/genxbot/backend/tests/test_orchestrator.py:24-39 | approving a new run's first action executes it, records its command output as the newest artifact after the plan and logs `action_executed` last, while the edit stays pending and the run awaits approval |
| Orchestrator.ScenarioOutcome | applications/genxbot/backend/tests/test_orchestrator.py:30-39 | on any run whose first action is a command and whose second is pending, approving the first executes it and leaves the run awaiting approval with a command output artifact last |
| ConfigStore.ChooseKey | genxai/connectors/config_store.py:26-28 | the store's key is the given one when it is non-empty, otherwise the environment's |
| ConfigStore.Unwrap | genxai/connectors/config_store.py:72-76 | an envelope with a missing or falsy payload raises "Encrypted connector config missing payload"; without a key it raises "Encryption key not configured"; a successful read needs a key and a string payload |
| ConfigStore.Decode | genxai/connectors/config_store.py:68-77 | no file reads as `{}`; a value that is not an envelope reads as itself; an envelope reads as its decrypted, decoded payload (envelope test `is True`, see Findings) |
| ConfigStore.DecodeAsWritten | genxai/connectors/config_store.py:68-77 | as written: no file reads as `{}`; any dict whose `"encrypted"` field is truthy is handled as an envelope |
| ConfigStore.Encode | genxai/connectors/config_store.py:79-86 | without a key the file holds the JSON text of the mapping |
| ConfigStore.EntryOf | genxai/connectors/config_store.py:32-37 | an entry is built exactly when the payload is a dict with `connector_type` (otherwise KeyError); it keeps the name and `connector_type`, and `config` defaults to `{}` |
| ConfigStore.Stored | genxai/connectors/config_store.py:54-57 | the payload `save` stores is truthy and is read back as the same entry |
| ConfigStore.ListOf | genxai/connectors/config_store.py:30-39 | data that is not a dict cannot be iterated; the listing succeeds exactly when every payload makes an entry, and then holds one entry per stored name, built from its payload |
| ConfigStore.GetOf | genxai/connectors/config_store.py:41-50 | an unknown name or a falsy payload gives None; otherwise the entry built from the payload, or its KeyError |
| ConfigStore.ListFrom | genxai/connectors/config_store.py:68-70 | a missing file lists no entries (corrected store, see Findings) |
| ConfigStore.GetFrom | genxai/connectors/config_store.py:41-45 | a missing file gives None for every name (corrected store, see Findings) |
| ConfigStore.GetFromAsWritten | genxai/connectors/config_store.py:41-45 | a missing file gives None for every name, with the source's envelope test |
| ConfigStore.Saved | genxai/connectors/config_store.py:52-58 | a read error propagates; decoded data that is a list raises the list-index TypeError, and other data that is not a dict raises the item-assignment TypeError (corrected store, see Findings) |
| ConfigStore.Deleted | genxai/connectors/config_store.py:60-66 | a read error propagates; an absent name gives None and writes nothing; a decoded list holding the name raises on `pop`, and a decoded null, bool or number cannot be searched (corrected store, see Findings) |
| ConfigStore.EnvelopeTestsAgreeOnEnvelopes | genxai/connectors/config_store.py:72-85 | both envelope tests accept every envelope `_write_raw` writes, and the as-written test accepts everything the corrected one does |
| ConfigStore.DecodesDifferOnlyOnTruthyMarker | genxai/connectors/config_store.py:68-77 | the corrected and the as-written `_read_raw` differ only on a file whose `"encrypted"` field is truthy without being `true` |
| ConfigStore.EncodeThenDecode | genxai/connectors/config_store.py:68-86 | reading back what `_write_raw` wrote gives the same mapping, with or without a key, when decryption inverts encryption and decoding inverts encoding (corrected store, see Findings) |
| ConfigStore.KeylessReadIsPlain | genxai/connectors/config_store.py:68-77 | a successful read without a key never yields an envelope (corrected store, see Findings) |
| ConfigStore.SaveThenGet | genxai/connectors/config_store.py:41-58 | `save(e)` then `get(e.name)` returns `e` (corrected store, see Findings) |
| ConfigStore.SaveKeepsOthers | genxai/connectors/config_store.py:52-58 | `save` leaves what `get` returns for every other name unchanged (corrected store, see Findings) |
| ConfigStore.DeleteReportsPresence | genxai/connectors/config_store.py:60-66 | `delete` reports true exactly when the name was stored (corrected store, see Findings) |
| ConfigStore.DeleteThenGet | genxai/connectors/config_store.py:60-66 | after a `delete` that removed the name, `get` of it returns None and every other name reads as before (corrected store, see Findings) |
| ConfigStore.KeyedSaveWritesEnvelope | genxai/connectors/config_store.py:79-85 | with a key, `save` writes `{"encrypted": true, "payload": c}` where `c` decrypts to the JSON text of the updated mapping (corrected store, see Findings) |
| ConfigStore.EnvelopeNeedsPayload | genxai/connectors/config_store.py:72-75 | an envelope without a payload raises "missing payload", in both envelope tests |
| ConfigStore.EncryptedNameBreaksStore | genxai/connectors/config_store.py:72 | as written, a keyless store that saves an entry named `"encrypted"` then fails to read it back; with the `is True` test it reads the entry |
| ConfigStore.ConnectorConfigStore.constructor | genxai/connectors/config_store.py:26-28 | the key is the given non-empty key or else the environment's; the file is the given one |
| ConfigStore.ConnectorConfigStore.List | genxai/connectors/config_store.py:30-39 | a missing file lists nothing; each listed entry carries its own name (corrected store, see Findings) |
| ConfigStore.ConnectorConfigStore.Get | genxai/connectors/config_store.py:41-50 | a missing file gives None; an entry found carries the requested name (corrected store, see Findings) |
| ConfigStore.ConnectorConfigStore.Save | genxai/connectors/config_store.py:52-58 | the file is rewritten with the entry under its name, or left unchanged when reading or writing raises (corrected store, see Findings) |
| ConfigStore.ConnectorConfigStore.Delete | genxai/connectors/config_store.py:60-66 | an absent name gives false and nothing is written; a present one gives true and the file is rewritten without it; an error leaves the file unchanged (corrected store, see Findings) |
| Episodic.Select | genxai/core/memory/episodic.py:225-231 | a list comprehension keeps exactly the episodes that meet its condition, and no more of them than there were |
| Episodic.SelectKeepsAll | genxai/core/memory/episodic.py:225-231 | a comprehension drops nothing exactly when every episode meets its condition |
| Episodic.SelectNone | genxai/core/memory/episodic.py:259-261 | a comprehension whose condition no episode meets keeps nothing |
| Episodic.Ratio | genxai/core/memory/episodic.py:326-330 | `n / d` with `0.0` for no counted items: within `[0, 1]` when `n <= d`, `0.0` exactly when `n` or `d` is zero, `1.0` exactly when `n == d` |
| Episodic.Oldest | genxai/core/memory/episodic.py:178-181 | `min(keys, key=timestamp)` is one of the keys and its timestamp is no later than any other key's |
| Episodic.OldestIsFirst | genxai/core/memory/episodic.py:178-181 | of several least timestamps, `min` picks the first in key order |
| Episodic.Admit | genxai/core/memory/episodic.py:169-182 | filing an episode keeps every id mapped to the episode with that id |
| Episodic.AdmitEvictsOneOldest | genxai/core/memory/episodic.py:173-182 | within the limit the episode is just filed; past it exactly one episode is removed, one with the least timestamp |
| Episodic.AdmitKeepsBound | genxai/core/memory/episodic.py:176-182 | a store within `max_episodes` stays within it after a store |
| Episodic.NewestSurvives | genxai/core/memory/episodic.py:173-182 | with a positive limit, a new episode newer than every stored one is never the one evicted |
| Episodic.AgentEpisodes | genxai/core/memory/episodic.py:225-231 | the candidates are exactly the stored episodes of the agent, and only the successful ones under `success_only` |
| Episodic.ByAgent | genxai/core/memory/episodic.py:225-236 | every returned episode is a stored one of that agent (successful under `success_only`), at most `limit` of them |
| Episodic.ByAgentMostRecent | genxai/core/memory/episodic.py:233-236 | the result is newest first, no left-out candidate is newer than a returned one, and a large enough limit returns every candidate |
| Episodic.SimilarEpisodes | genxai/core/memory/episodic.py:256-261 | the candidates are exactly the episodes whose lower-cased task contains a word of the lower-cased query |
| Episodic.Similar | genxai/core/memory/episodic.py:256-269 | every returned episode is a candidate, at most `limit` of them |
| Episodic.SimilarRanked | genxai/core/memory/episodic.py:263-269 | successes come before failures, each run newest first, nothing left out ranks above anything returned, and a large enough limit returns all candidates |
| Episodic.BlankQueryFindsNothing | genxai/core/memory/episodic.py:256-261 | a query with no words (empty or all whitespace) finds no episode |
| Episodic.RateScope | genxai/core/memory/episodic.py:313-324 | the counted episodes are exactly those of the given agent whose lower-cased task contains the lower-cased pattern, each filter applying only when given and non-empty |
| Episodic.SuccessRate | genxai/core/memory/episodic.py:313-330 | the rate lies in `[0, 1]` and is `0.0` when nothing is counted |
| Episodic.RateExtremes | genxai/core/memory/episodic.py:326-330 | the rate is `0.0` exactly when no counted episode succeeded and `1.0` exactly when some are counted and all succeeded |
| Episodic.RateIsShare | genxai/core/memory/episodic.py:329-330 | once something is counted, the rate is the number of successes over the number counted |
| Episodic.PatternScope | genxai/core/memory/episodic.py:346-349 | the grouped episodes are exactly those of the given agent, or all when none is given |
| Episodic.TaskKeys | genxai/core/memory/episodic.py:352-357 | the group keys are distinct and are exactly the lower-cased tasks that occur |
| Episodic.Latest | genxai/core/memory/episodic.py:369 | the latest timestamp is no earlier than any episode's and is some episode's own |
| Episodic.Summarize | genxai/core/memory/episodic.py:362-370 | a pattern names its task and counts its group, its success rate is in `[0, 1]`, and `last_seen` is the timestamp of an episode of the group |
| Episodic.CollectSound | genxai/core/memory/episodic.py:360-370 | everything collected is the summary of a key's group with at least `min_occurrences` episodes |
| Episodic.CollectComplete | genxai/core/memory/episodic.py:360-370 | every key whose group is large enough has its summary collected |
| Episodic.GroupByTask | genxai/core/memory/episodic.py:352-357 | the grouping loop maps each lower-cased task, in first-occurrence order, to the episodes with that task in store order |
| Episodic.SummarizeGroups | genxai/core/memory/episodic.py:360-370 | the second loop collects the summary of every group large enough, in key order |
| Episodic.PatternsSorted | genxai/core/memory/episodic.py:372-373 | the patterns `get_patterns` returns (`PatternsOf`) come most frequent first |
| Episodic.PatternsCountGroups | genxai/core/memory/episodic.py:352-370 | each pattern's occurrences is the number of episodes with its task, at least `min_occurrences` and at least one, and the task occurs |
| Episodic.PatternsComplete | genxai/core/memory/episodic.py:352-370 | every task occurring at least `min_occurrences` times has a pattern |
| Episodic.DecodeValue | genxai/core/memory/episodic.py:439-447 | `None` and undecodable text give the fallback, decodable text its decoded value, and any other value is kept |
| Episodic.DecodeOfEncoded | genxai/core/memory/episodic.py:439-447 | a value stored as its JSON text decodes back to itself |
| Episodic.KeepKeys | genxai/core/memory/episodic.py:385-388 | the kept keys are exactly those whose episode belongs to another agent, still distinct |
| Episodic.KeepKeysValues | genxai/core/memory/episodic.py:385-388 | the episodes under the kept keys are the store's episodes of other agents, in order |
| Episodic.WithoutAgent | genxai/core/memory/episodic.py:383-388 | clearing an agent keeps exactly the other agents' episodes under their ids, in the same order |
| Episodic.EpisodicMemory.constructor | genxai/core/memory/episodic.py:98-120 | a new memory holds no episodes and keeps the given limit |
| Episodic.EpisodicMemory.StoreEpisode | genxai/core/memory/episodic.py:157-182 | the new episode carries the given id, clock reading and fields with metadata defaulting to `{}`, and the store becomes the admitted store |
| Episodic.EpisodicMemory.RetrieveEpisode | genxai/core/memory/episodic.py:198-201 | an episode is returned exactly when one is stored under the id, and it is that one |
| Episodic.EpisodicMemory.RetrieveByAgent | genxai/core/memory/episodic.py:225-236 | every returned episode is stored under its id and belongs to the agent |
| Episodic.EpisodicMemory.RetrieveSimilarTasks | genxai/core/memory/episodic.py:256-269 | every returned episode is stored under its id |
| Episodic.EpisodicMemory.GetSuccessRate | genxai/core/memory/episodic.py:313-330 | the rate lies in `[0, 1]` |
| Episodic.EpisodicMemory.GetPatterns | genxai/core/memory/episodic.py:346-375 | the two loops and the sort compute the patterns of the in-scope episodes |
| Episodic.EpisodicMemory.Clear | genxai/core/memory/episodic.py:383-393 | with an agent, only that agent's episodes go; without one, all go |
| Episodic.EpisodicMemory.Length | genxai/core/memory/episodic.py:595-597 | the length is the number of stored episodes |
| Sequences.SortDesc | genxai/core/memory/episodic.py:234 | `sort(key=..., reverse=True)` returns a permutation of the episodes, of the same length |
| Sequences.SortDescSorted | genxai/core/memory/episodic.py:264-268 | the sorted list ranks every element at least as high as every later one |
| Sequences.SortKeepsSorted | genxai/core/memory/episodic.py:373 | a list already in descending order, ties included, comes back unchanged |
| Sequences.WithKey | genxai/core/memory/episodic.py:373 | the elements sharing one key, in order, are elements of the list with that key |
| Sequences.InsertWithKey | genxai/core/memory/episodic.py:373 | inserting one element puts it ahead of the elements it ties with and moves none of them |
| Sequences.SortDescStable | genxai/core/memory/episodic.py:373 | the sort is stable: the elements that share any one key come out in the order they went in |
| Sequences.Prefix | genxai/core/memory/episodic.py:236 | `s[:limit]` keeps the first `min(limit, len(s))` elements, and a negative limit drops that many from the end |
| Sequences.TopRanked | genxai/core/memory/episodic.py:264-269 | the first `limit` of the sorted episodes are descending, outrank every episode left out, and are all of them when the limit reaches the count |
| Text.ParseNatToString | applications/genxbot/backend/app/services/observability_events.py:253-258 | parsing `str(n)` gives back `n` for every natural number of at most 4300 digits |
| Text.NatToStringInjective | genxai/security/audit.py:235 | different natural numbers print differently, however many digits they have |
| Text.LongDigitsRejected | applications/genxbot/backend/app/services/observability_events.py:253 | a run of more than 4300 digits does not parse, whatever its value |
| Text.ParseNatToStringLimit | genxai/security/audit.py:228 | `int(str(n))` is `n` exactly when `str(n)` has at most 4300 digits; a longer numeral raises `ValueError` |

## Left out

- Concurrency: the asyncio locks and `gather`, the retry worker's thread, stop flag and sleeps,
  and the observability lock. Each guarded operation is one atomic step. The queue trigger's listen
  loop is one pass per step: the poll timeout and the sleep after an error are not timed.
- The SQLite `AuditStore` (genxai/security/audit.py:35-192) is replaced by an in-memory store of
  requests and events, which a reloaded service reads back.
- Episodic memory: the graph-database branches, disk persistence (genxai/core/memory/episodic.py:426-437,
  484-593) and `get_stats` are not modelled. Timestamps are numbers that compare as the times do.
- The LLM and agent pipeline of the orchestrator (applications/genxbot/backend/app/services/orchestrator.py:54-177)
  and the tool stack of `_build_genxai_stack` are not modelled. The pipeline's outcome is the input `Pipeline`.
- Orchestrator.GenXBotOrchestrator.CreateRun: reads the clock once, so `created_at`, `updated_at` and every
  timeline event's timestamp are the same reading, where the source reads it at orchestrator.py:219 and 313 and
  in each timeline event's default timestamp (schemas.py:30).
- `get_run` and `list_runs` of the orchestrator only forward to the run store, whose `get` and `list_runs`
  are modelled (`Store.RunStore.Get`, `Store.RunStore.ListRuns`).
- Floating point:
  - latency averages and percentiles, and the observability `snapshot` summary (observability_events.py:261-304);
  - the sampling buckets of fractional rates; the always-in and always-out edges, monotonicity in the rate and
    distinct seeds per emit are proved;
  - backoff durations;
  - floating-point rounding in episodic memory. Success rates and average durations are exact real
    numbers.
- `_parse_ts`, ISO time formatting and the start/end time-window filters of the observability queries are not
  modelled. The other filters are.
- Metrics, tracing (`add_event`) and logging calls are not modelled; they change no state the model keeps.
- The pydantic declarations' `Literal` checks and `default_factory` ids are not modelled. Statuses and kinds are enumerations, and ids come from the uuid draws.
- A JSON value's `str()` is an abstract text (`PyStr`): how Python prints a container is not modelled.
- Metadata dict order in the provider adapters' normalized events is not modelled: metadata is a map.
- The connector health payload's `last_healthcheck` ISO timestamp is an input.
- Text.ParseNatToString: proves `int(str(n)) == n` for natural numbers only. The negative-number round trip is not stated.
- Text.NatToString: prints every natural number, where Python 3.11's `str()` of an integer with more than 4300 digits
  raises `ValueError`. The numbers printed are the audit counter, the observability emit counter and next cursor, and
  JSON integers, which `json.loads` and `json.dumps` limit the same way; the config codec's round-trip law
  (`ConfigStore.RoundTrips`) leaves that limit out. So the lemmas that read a printed number back
  (`Audit.CounterOfNext`, `Audit.Restart`, `ObservabilityEvents.PageContinues`) state their result for numbers of at
  most 4300 digits.
- Audit.ApprovalService.Submit: once the counter has more than 4300 digits, `f"approval_{self._counter}"`
  (audit.py:235) raises after the counter was raised; the model stores the request under the full id, and the
  freshness of that id is promised only for counters of at most 4300 digits.
- Text.Lower: lower-cases ASCII letters only; Unicode case mapping is not modelled.
- Text.IsDigit: accepts the ASCII digits only, where Python's `int()` also accepts other Unicode decimal digits
  (such as Arabic-Indic digits). So `Text.ParseInt`, the observability cursor (`ObservabilityEvents.CursorOffset`)
  and the audit id counter reject such text, where the source would parse it.
- Json: has no floating-point case. The float pass-through of `_sanitize_attributes`
  (observability_events.py:60-63) and float values in payloads and connector configs are not modelled.
- Audit.ApprovalService.Approve: the requests are values. The source updates the stored `ApprovalRequest` object in place,
  so a caller that kept the object from `submit`, `approve`, `reject` or `get` sees the new status; that aliasing is not modelled.
- Audit.ApprovalService.Reject: the same in-place update of a handed-out request is not modelled.
- Signature.HashlibAttributes: lists the public names of Python 3.11's `hashlib`. Private helpers and module dunder
  attributes also satisfy `hasattr` and are treated here as unknown names. The error text for an attribute that is not
  an HMAC digest is not Python's exact message.
- OutboundRetryQueue.RetryQueue.Step: a `send_fn` that raises is not modelled. In the source the exception ends the
  worker thread (outbound_retry_queue.py:70) and the popped job is lost, neither requeued nor dead-lettered.
- Audit.ApprovalService: the invariant keeps only that no id after the counter is in use, not that the counter
  equals the inferred maximum. The constructor still establishes the maximum (`_infer_counter`).
- Audit.SubmitThree: its postcondition does not restate the service invariant afterwards.
- ConfigStore.ListOf: any malformed payload is reported as the missing `connector_type` KeyError. Which payload
  raises first depends on the file's key order.
- ConfigStore.ListFrom: built on the corrected envelope test (`ConfigStore.Decode`). As written
  (config_store.py:72) a keyless store holding an entry named `encrypted` raises instead; see Findings.
- ConfigStore.GetFrom: the same corrected envelope test; the as-written read is `ConfigStore.GetFromAsWritten`.
- ConfigStore.Saved: the same corrected envelope test; as written, `save` on such a file raises.
- ConfigStore.Deleted: the same corrected envelope test; as written, `delete` on such a file raises.
- ConfigStore.SaveThenGet: proved for the corrected store. As written it fails for an entry named `encrypted`
  (`ConfigStore.EncryptedNameBreaksStore`).
- ConfigStore.SaveKeepsOthers: proved for the corrected store only.
- ConfigStore.DeleteReportsPresence: proved for the corrected store only.
- ConfigStore.DeleteThenGet: proved for the corrected store only.
- ConfigStore.ConnectorConfigStore.List: uses the corrected envelope test. As written, a keyless store holding
  `encrypted` raises "Encrypted connector config missing payload".
- ConfigStore.ConnectorConfigStore.Get: uses the corrected envelope test, with the same difference.
- ConfigStore.ConnectorConfigStore.Save: uses the corrected envelope test, with the same difference.
- ConfigStore.ConnectorConfigStore.Delete: uses the corrected envelope test, with the same difference.
- ConfigStore: the round trips of JSON encoding and of encryption are the predicate `RoundTrips`. It is assumed only in
  the preconditions of the lemmas that need it. The JSON indentation and the parent directory creation of `_write_raw`
  are not modelled. Neither is the `ImportError` for a missing cryptography package.
- `start_all` in both registries lets the first `start` exception escape, and the sources after it are not started
  (genxai/triggers/registry.py:58-62, genxai/connectors/registry.py:37-39).
- The schedule trigger accepts any truthy interval, including a negative one (genxai/triggers/schedule.py:34-35).
- The polling connectors (Kafka, SQS, Postgres change capture), the HTTP provider connectors, the file watcher, the
  CLI and the HTTP routes are not part of this model.
- Test scenarios are stated for all inputs where the test fixes literals. Examples are the orchestrator approval
  scenario and the audit reload.
- The trigger registry's integration scenario for `clear` and `get_stats`
  (tests/integration/test_trigger_workflow_integration.py:218-241) is covered by the class contracts and the
  repeat lemmas, not by a lemma of its own.

## Findings

| source | as written | input that shows it | evidently intended | confidence | as-written member | corrected member |
|---|---|---|---|---|---|---|
| genxai/connectors/config_store.py:72 | `_read_raw` treats any dict with a truthy `"encrypted"` field as an encryption envelope | a store without a key saves an entry named `encrypted`; the next `get` or `list` raises `ValueError("Encrypted connector config missing payload")` | only the envelope written by `_write_raw`, whose field is `True`, is decrypted (`raw.get("encrypted") is True`) | not executed | ConfigStore.EncryptedNameBreaksStore | ConfigStore.Decode |
