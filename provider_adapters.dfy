/**
 * The GenXBot connector adapters: each one normalizes an inbound provider payload (GitHub, Jira,
 * Slack or a generic webhook) into one normalized event record, and `parse_connector_event` picks
 * the adapter by the stripped, lower-cased connector name.
 *
 * A payload is a Python dict of JSON values. `x.get(...)` on a value that is not a dict raises
 * `AttributeError`; an adapter's `Result` carries that exception, raised at the first such call
 * in Python's evaluation order (an `a or b` evaluates `b` only when `a` is falsy).
 */
module ProviderAdapters {
  import opened Results
  import opened Text
  import opened Json

  /** The normalized event record; each field holds the value the adapter passes to it. */
  datatype NormalizedEvent = NormalizedEvent(
    connector: string,
    eventType: string,
    actorId: Json,
    sourceRef: Json,
    resourceId: Json,
    summary: Json,
    text: Json,
    metadata: Object,
    rawPayload: Object)

  const GitHubName: string := "github"
  const JiraName: string := "jira"
  const SlackName: string := "slack"
  const WebhookName: string := "webhook"

  // Payload keys.
  const RepositoryKey: string := "repository"
  const PullRequestKey: string := "pull_request"
  const IssueKey: string := "issue"
  const SenderKey: string := "sender"
  const NumberKey: string := "number"
  const TitleKey: string := "title"
  const BodyKey: string := "body"
  const LoginKey: string := "login"
  const FullNameKey: string := "full_name"
  const ActionKey: string := "action"
  const HtmlUrlKey: string := "html_url"
  const RepositoryUrlKey: string := "repository_url"
  const InstallationKey: string := "installation"
  const InstallationIdKey: string := "installation_id"
  const IdKey: string := "id"
  const FieldsKey: string := "fields"
  const ProjectKey: string := "project"
  const UserKey: string := "user"
  const AccountIdKey: string := "accountId"
  const KeyKey: string := "key"
  const NameKey: string := "name"
  const SummaryKey: string := "summary"
  const DescriptionKey: string := "description"
  const IssueIdKey: string := "issue_id"
  const IssueTypeKey: string := "issuetype"
  const IssueTypeOutKey: string := "issue_type"
  const PriorityKey: string := "priority"
  const StatusKey: string := "status"
  const EventKey: string := "event"
  const ChannelKey: string := "channel"
  const TsKey: string := "ts"
  const TextKey: string := "text"
  const ThreadTsKey: string := "thread_ts"
  const SubtypeKey: string := "subtype"
  const TeamIdKey: string := "team_id"
  const ActorKey: string := "actor"
  const SourceKey: string := "source"
  const ResourceKey: string := "resource"
  const EventTypeKey: string := "event_type"
  const TypeKey: string := "type"
  const ActorIdKey: string := "actor_id"
  const SourceRefKey: string := "source_ref"
  const RefKey: string := "ref"
  const ResourceIdKey: string := "resource_id"
  const MessageKey: string := "message"
  const MetadataKey: string := "metadata"
  const ProviderKey: string := "provider"
  const WebhookIdKey: string := "webhook_id"
  const HeadersKey: string := "headers"

  const SlackSummary: string := "Slack message event"
  const DefaultWebhookEvent: string := "webhook.event"
  const EmptyText: Json := JStr("")

  /** `_as_str`: `None` stays `None`, anything else becomes its `str`. */
  function AsStr(v: Json): (r: Json)
    ensures r.JNull? <==> v.JNull?
    ensures r.JNull? || r.JStr?
    ensures v.JStr? ==> r == v
  {
    if v.JNull? then JNull else JStr(PyStr(v))
  }

  /** The dict `v` is, or the `AttributeError` that calling `v.get` raises. */
  function AsDict(v: Json): (r: Result<Object>)
    ensures r.Ok? <==> v.JObj?
    ensures v.JObj? ==> r.value == v.fields
    ensures !v.JObj? ==> r == Err(NoGet(v))
  {
    if v.JObj? then Ok(v.fields) else Err(NoGet(v))
  }

  /** `d.get(key)` on a dict. */
  function Field(d: Object, key: string): Json {
    Lookup(d, key, JNull)
  }

  /** `d.get(key, {})` is a dict: the key is absent or holds a dict. */
  predicate DictAt(d: Object, key: string) {
    key !in d || d[key].JObj?
  }

  /** The dict under `key`, or `{}` when the key is absent or holds something else. */
  function SubObject(d: Object, key: string): Object {
    if key in d && d[key].JObj? then d[key].fields else map[]
  }

  /** A truthy value never prints as the empty text. */
  lemma TruthyText(v: Json)
    requires Truthy(v)
    ensures PyStr(v) != ""
  {
    if v.JInt? {
      assert |NatToString(if v.i < 0 then -v.i else v.i)| >= 1;
    }
  }

  // ---- GitHub ----

  /** `GitHubConnectorAdapter.parse`. */
  function ParseGitHub(eventType: string, payload: Object): (r: Result<NormalizedEvent>)
    ensures r.Ok? ==> r.value.connector == GitHubName && r.value.eventType == eventType
    ensures r.Ok? ==> r.value.rawPayload == payload
    ensures r.Ok? ==> ActionKey in r.value.metadata && r.value.metadata[ActionKey] == Field(payload, ActionKey)
  {
    var pr :- AsDict(Lookup(payload, PullRequestKey, EmptyObject));
    // The issue is read only when the pull request lacks a number, a title or a body.
    var needsIssue := !Truthy(Field(pr, NumberKey)) || !Truthy(Field(pr, TitleKey)) || !Truthy(Field(pr, BodyKey));
    var issue :- if needsIssue then AsDict(Lookup(payload, IssueKey, EmptyObject)) else Ok(map[]);
    var number := Or(Field(pr, NumberKey), Field(issue, NumberKey));
    var numberText := PyStr(Or(number, EmptyText));
    var sender :- AsDict(Lookup(payload, SenderKey, EmptyObject));
    var repository :- AsDict(Lookup(payload, RepositoryKey, EmptyObject));
    var installation :- AsDict(Lookup(payload, InstallationKey, EmptyObject));
    Ok(NormalizedEvent(GitHubName, eventType, AsStr(Field(sender, LoginKey)), Field(repository, FullNameKey),
      if numberText != "" then JStr(numberText) else JNull,
      Or(Field(pr, TitleKey), Field(issue, TitleKey)), Or(Field(pr, BodyKey), Field(issue, BodyKey)),
      map[ActionKey := Field(payload, ActionKey), RepositoryUrlKey := Field(repository, HtmlUrlKey),
          InstallationIdKey := Field(installation, IdKey)],
      payload))
  }

  /** The parts of a GitHub payload that `parse` calls `.get` on are dicts or absent. */
  predicate GitHubShaped(payload: Object) {
    DictAt(payload, RepositoryKey) && DictAt(payload, PullRequestKey) && DictAt(payload, IssueKey)
    && DictAt(payload, SenderKey) && DictAt(payload, InstallationKey)
  }

  /**
   * A well-shaped GitHub payload parses: the resource id is the pull request's number as text,
   * else the issue's (whichever is truthy first), else `None`; summary and text prefer the pull request over the issue; the
   * actor is the sender's login as text, or `None`; the source is the repository's full name.
   */
  lemma GitHubNormalizes(eventType: string, payload: Object)
    requires GitHubShaped(payload)
    ensures var r := ParseGitHub(eventType, payload);
      var pr := SubObject(payload, PullRequestKey);
      var issue := SubObject(payload, IssueKey);
      var number := Or(Field(pr, NumberKey), Field(issue, NumberKey));
      && r.Ok?
      && r.value.resourceId == (if Truthy(number) then JStr(PyStr(number)) else JNull)
      && r.value.summary == Or(Field(pr, TitleKey), Field(issue, TitleKey))
      && r.value.text == Or(Field(pr, BodyKey), Field(issue, BodyKey))
      && r.value.actorId == AsStr(Field(SubObject(payload, SenderKey), LoginKey))
      && r.value.sourceRef == Field(SubObject(payload, RepositoryKey), FullNameKey)
  {
    var pr := SubObject(payload, PullRequestKey);
    var issue := SubObject(payload, IssueKey);
    assert AsDict(Lookup(payload, PullRequestKey, EmptyObject)) == Ok(pr);
    assert AsDict(Lookup(payload, IssueKey, EmptyObject)) == Ok(issue);
    assert AsDict(Lookup(payload, SenderKey, EmptyObject)) == Ok(SubObject(payload, SenderKey));
    assert AsDict(Lookup(payload, RepositoryKey, EmptyObject)) == Ok(SubObject(payload, RepositoryKey));
    assert AsDict(Lookup(payload, InstallationKey, EmptyObject)) == Ok(SubObject(payload, InstallationKey));
    var needsIssue := !Truthy(Field(pr, NumberKey)) || !Truthy(Field(pr, TitleKey)) || !Truthy(Field(pr, BodyKey));
    // When the issue is not read, the pull request's values win each `or` anyway.
    var read: Object := if needsIssue then issue else map[];
    assert Or(Field(pr, NumberKey), Field(read, NumberKey)) == Or(Field(pr, NumberKey), Field(issue, NumberKey));
    assert Or(Field(pr, TitleKey), Field(read, TitleKey)) == Or(Field(pr, TitleKey), Field(issue, TitleKey));
    assert Or(Field(pr, BodyKey), Field(read, BodyKey)) == Or(Field(pr, BodyKey), Field(issue, BodyKey));
    var number := Or(Field(pr, NumberKey), Field(issue, NumberKey));
    if Truthy(number) {
      TruthyText(number);
    }
  }

  /** A pull request that is present but not a dict raises before anything else is read. */
  lemma GitHubRejectsNonDictPullRequest(eventType: string, payload: Object)
    requires PullRequestKey in payload && !payload[PullRequestKey].JObj?
    ensures ParseGitHub(eventType, payload) == Err(NoGet(payload[PullRequestKey]))
  {
  }

  // ---- Jira ----

  /** `JiraConnectorAdapter.parse`. */
  function ParseJira(eventType: string, payload: Object): (r: Result<NormalizedEvent>)
    ensures r.Ok? ==> r.value.connector == JiraName && r.value.eventType == eventType
    ensures r.Ok? ==> r.value.rawPayload == payload
  {
    var issue := Lookup(payload, IssueKey, EmptyObject);
    var issueObj :- AsDict(issue);
    var fields :- AsDict(Lookup(issueObj, FieldsKey, EmptyObject));
    var project := Lookup(fields, ProjectKey, EmptyObject);
    var user :- AsDict(Lookup(payload, UserKey, EmptyObject));
    var projectObj :- AsDict(project);
    var issueType :- AsDict(Lookup(fields, IssueTypeKey, EmptyObject));
    var priority :- AsDict(Lookup(fields, PriorityKey, EmptyObject));
    var status :- AsDict(Lookup(fields, StatusKey, EmptyObject));
    Ok(NormalizedEvent(JiraName, eventType, AsStr(Field(user, AccountIdKey)),
      Or(Field(projectObj, KeyKey), Field(projectObj, NameKey)), Field(issueObj, KeyKey),
      Field(fields, SummaryKey), Field(fields, DescriptionKey),
      map[IssueIdKey := Field(issueObj, IdKey), IssueTypeOutKey := Field(issueType, NameKey),
          PriorityKey := Field(priority, NameKey), StatusKey := Field(status, NameKey)],
      payload))
  }

  /** The issue's fields of a Jira payload, as `parse` reads them where they are dicts. */
  function JiraFields(payload: Object): Object {
    SubObject(SubObject(payload, IssueKey), FieldsKey)
  }

  /** The parts of a Jira payload that `parse` calls `.get` on are dicts or absent. */
  predicate JiraShaped(payload: Object) {
    var fields := JiraFields(payload);
    DictAt(payload, IssueKey) && DictAt(SubObject(payload, IssueKey), FieldsKey)
    && DictAt(fields, ProjectKey) && DictAt(fields, IssueTypeKey) && DictAt(fields, PriorityKey)
    && DictAt(fields, StatusKey) && DictAt(payload, UserKey)
  }

  /**
   * A well-shaped Jira payload parses: the source is the project key, falling back to the
   * project name; the resource is the issue key; summary and text are the issue's summary and
   * description; the metadata's status is the status name and its issue id the issue's id.
   */
  lemma JiraNormalizes(eventType: string, payload: Object)
    requires JiraShaped(payload)
    ensures var r := ParseJira(eventType, payload);
      var issue := SubObject(payload, IssueKey);
      var fields := JiraFields(payload);
      var project := SubObject(fields, ProjectKey);
      && r.Ok?
      && r.value.actorId == AsStr(Field(SubObject(payload, UserKey), AccountIdKey))
      && r.value.sourceRef == Or(Field(project, KeyKey), Field(project, NameKey))
      && r.value.resourceId == Field(issue, KeyKey)
      && r.value.summary == Field(fields, SummaryKey)
      && r.value.text == Field(fields, DescriptionKey)
      && r.value.metadata[IssueIdKey] == Field(issue, IdKey)
      && r.value.metadata[StatusKey] == Field(SubObject(fields, StatusKey), NameKey)
  {
    assert SubObject(payload, IssueKey) == (if IssueKey in payload then payload[IssueKey].fields else map[]);
  }

  // ---- Slack ----

  /** `SlackConnectorAdapter.parse`: the fields come from `payload["event"]` when there is one. */
  function ParseSlack(eventType: string, payload: Object): (r: Result<NormalizedEvent>)
    ensures r.Ok? ==> r.value.connector == SlackName && r.value.eventType == eventType
    ensures r.Ok? ==> r.value.rawPayload == payload && r.value.summary == JStr(SlackSummary)
  {
    var event :- AsDict(Lookup(payload, EventKey, JObj(payload)));
    Ok(NormalizedEvent(SlackName, eventType, AsStr(Field(event, UserKey)), AsStr(Field(event, ChannelKey)),
      AsStr(Field(event, TsKey)), JStr(SlackSummary), Field(event, TextKey),
      map[ThreadTsKey := Field(event, ThreadTsKey), SubtypeKey := Field(event, SubtypeKey),
          TeamIdKey := Field(payload, TeamIdKey)],
      payload))
  }

  /**
   * Slack reads the event object when the payload has one and the payload itself otherwise:
   * actor, channel and timestamp are stringified or `None`, the team id comes from the payload.
   */
  lemma SlackReadsEvent(eventType: string, payload: Object)
    requires DictAt(payload, EventKey)
    ensures var r := ParseSlack(eventType, payload);
      var event := if EventKey in payload then SubObject(payload, EventKey) else payload;
      && r.Ok?
      && r.value.actorId == AsStr(Field(event, UserKey))
      && r.value.sourceRef == AsStr(Field(event, ChannelKey))
      && r.value.resourceId == AsStr(Field(event, TsKey))
      && r.value.text == Field(event, TextKey)
      && r.value.metadata[TeamIdKey] == Field(payload, TeamIdKey)
  {
  }

  /** An `event` entry that is not a dict raises. */
  lemma SlackRejectsNonDictEvent(eventType: string, payload: Object)
    requires EventKey in payload && !payload[EventKey].JObj?
    ensures ParseSlack(eventType, payload) == Err(NoGet(payload[EventKey]))
  {
  }

  // ---- generic webhook ----

  /** `payload.get(key) if isinstance(payload.get(key), dict) else {}`. */
  function DictField(payload: Object, key: string): Object {
    SubObject(payload, key)
  }

  /**
   * The normalized event type: the argument, else the payload's `event_type`, else its `type`
   * (each as text, skipped when empty or absent), else `"webhook.event"`.
   */
  function WebhookEventType(eventType: string, payload: Object): (t: string)
    ensures t != ""
    ensures eventType != "" ==> t == eventType
  {
    var fromEventType := AsStr(Field(payload, EventTypeKey));
    var fromType := AsStr(Field(payload, TypeKey));
    if eventType != "" then eventType
    else if Truthy(fromEventType) then fromEventType.s
    else if Truthy(fromType) then fromType.s
    else DefaultWebhookEvent
  }

  /** The payload's `metadata` when it is a dict, with `provider`, `webhook_id` and `headers` set over it. */
  function WebhookMetadata(payload: Object): Object {
    var headers := if HeadersKey in payload && payload[HeadersKey].JObj? then payload[HeadersKey] else JNull;
    DictField(payload, MetadataKey)[ProviderKey := Field(payload, ProviderKey)]
      [WebhookIdKey := Field(payload, WebhookIdKey)][HeadersKey := headers]
  }

  /** `WebhookConnectorAdapter.parse`: every `.get` is on a dict, so it never raises. */
  function ParseWebhook(eventType: string, payload: Object): (r: Result<NormalizedEvent>)
    ensures r.Ok? && r.value.connector == WebhookName && r.value.rawPayload == payload
    ensures r.value.eventType == WebhookEventType(eventType, payload)
    ensures r.value.metadata == WebhookMetadata(payload)
  {
    var actor := DictField(payload, ActorKey);
    var source := DictField(payload, SourceKey);
    var resource := DictField(payload, ResourceKey);
    var actorId := Or(Or(AsStr(Field(payload, ActorIdKey)), AsStr(Field(actor, IdKey))), AsStr(Field(actor, NameKey)));
    var sourceRef := Or(Or(Or(AsStr(Field(payload, SourceRefKey)), AsStr(Field(source, RefKey))),
      AsStr(Field(source, IdKey))), AsStr(Field(source, NameKey)));
    var resourceId := Or(Or(AsStr(Field(payload, ResourceIdKey)), AsStr(Field(resource, IdKey))),
      AsStr(Field(resource, KeyKey)));
    Ok(NormalizedEvent(WebhookName, WebhookEventType(eventType, payload), actorId, sourceRef, resourceId,
      AsStr(Field(payload, SummaryKey)), AsStr(Or(Field(payload, TextKey), Field(payload, MessageKey))),
      WebhookMetadata(payload), payload))
  }

  /**
   * The event type falls back in order: the argument, the payload's text `event_type`, its
   * text `type`, then `"webhook.event"`.
   */
  lemma WebhookEventTypeFallback(eventType: string, payload: Object)
    ensures var t := WebhookEventType(eventType, payload);
      var et := Field(payload, EventTypeKey);
      var ty := Field(payload, TypeKey);
      && (eventType == "" && et.JStr? && et.s != "" ==> t == et.s)
      && (eventType == "" && et.JNull? && ty.JStr? && ty.s != "" ==> t == ty.s)
      && (eventType == "" && et.JNull? && ty.JNull? ==> t == DefaultWebhookEvent)
      && (t == eventType || t == PyStr(et) || t == PyStr(ty) || t == DefaultWebhookEvent)
  {
  }

  /**
   * The metadata keeps every entry of the payload's dict `metadata` except the three keys the
   * adapter sets over it; `headers` is the payload's headers when they are a dict, else `None`.
   */
  lemma WebhookMetadataEntries(payload: Object)
    ensures var m := WebhookMetadata(payload);
      var base := DictField(payload, MetadataKey);
      && m.Keys == base.Keys + {ProviderKey, WebhookIdKey, HeadersKey}
      && (forall k :: k in base && k != ProviderKey && k != WebhookIdKey && k != HeadersKey ==> m[k] == base[k])
      && m[ProviderKey] == Field(payload, ProviderKey)
      && m[WebhookIdKey] == Field(payload, WebhookIdKey)
      && m[HeadersKey] == (if HeadersKey in payload && payload[HeadersKey].JObj? then payload[HeadersKey] else JNull)
  {
  }

  /** An `actor` that is not a dict reads as `{}`: the event is the one an empty actor gives. */
  lemma WebhookIgnoresNonDictActor(eventType: string, payload: Object)
    requires ActorKey in payload && !payload[ActorKey].JObj?
    ensures ParseWebhook(eventType, payload).value
      == ParseWebhook(eventType, payload[ActorKey := EmptyObject]).value.(rawPayload := payload)
  {
    var cleaned := payload[ActorKey := EmptyObject];
    assert DictField(cleaned, ActorKey) == DictField(payload, ActorKey);
    assert forall k :: k != ActorKey ==> Field(cleaned, k) == Field(payload, k);
    assert forall k :: k != ActorKey ==> DictField(cleaned, k) == DictField(payload, k);
    assert WebhookEventType(eventType, cleaned) == WebhookEventType(eventType, payload);
    assert WebhookMetadata(cleaned) == WebhookMetadata(payload);
  }

  // ---- dispatch ----

  datatype Adapter = GitHubAdapter | JiraAdapter | SlackAdapter | WebhookAdapter

  function AdapterName(a: Adapter): string {
    match a
    case GitHubAdapter => GitHubName
    case JiraAdapter => JiraName
    case SlackAdapter => SlackName
    case WebhookAdapter => WebhookName
  }

  /** `_ADAPTERS.get(key)`. */
  function AdapterFor(key: string): (r: Option<Adapter>)
    ensures r.Some? <==> key == GitHubName || key == JiraName || key == SlackName || key == WebhookName
    ensures r.Some? ==> AdapterName(r.value) == key
  {
    if key == GitHubName then Some(GitHubAdapter)
    else if key == JiraName then Some(JiraAdapter)
    else if key == SlackName then Some(SlackAdapter)
    else if key == WebhookName then Some(WebhookAdapter)
    else None
  }

  /** `adapter.parse(event_type, payload)`. */
  function Parse(a: Adapter, eventType: string, payload: Object): (r: Result<NormalizedEvent>)
    ensures r.Ok? ==> r.value.connector == AdapterName(a) && r.value.rawPayload == payload
  {
    match a
    case GitHubAdapter => ParseGitHub(eventType, payload)
    case JiraAdapter => ParseJira(eventType, payload)
    case SlackAdapter => ParseSlack(eventType, payload)
    case WebhookAdapter => ParseWebhook(eventType, payload)
  }

  const ValueErrorPrefix: string := "ValueError: "
  const UnsupportedConnector: string := "Unsupported connector"
  const ColonSpace: string := ": "

  /** The text of the `ValueError` for an unknown connector name. */
  function UnsupportedMessage(connector: string): string {
    ValueErrorPrefix + UnsupportedConnector + ColonSpace + connector
  }

  /** The key `parse_connector_event` looks the adapter up by. */
  function ConnectorKey(connector: string): string {
    Lower(Strip(connector))
  }

  /**
   * `parse_connector_event`: an unknown connector name raises `ValueError`; a known one is parsed
   * by its adapter, and a parsed event names that adapter and carries the payload unchanged.
   */
  function ParseConnectorEvent(connector: string, eventType: string, payload: Object): (r: Result<NormalizedEvent>)
    ensures AdapterFor(ConnectorKey(connector)).None?
      ==> r == Err(UnsupportedMessage(connector))
    ensures AdapterFor(ConnectorKey(connector)).Some?
      ==> r == Parse(AdapterFor(ConnectorKey(connector)).value, eventType, payload)
    ensures r.Ok? ==> r.value.connector == ConnectorKey(connector) && r.value.rawPayload == payload
  {
    match AdapterFor(ConnectorKey(connector))
    case None => Err(UnsupportedMessage(connector))
    case Some(a) => Parse(a, eventType, payload)
  }

  /** The error for an unknown connector mentions "Unsupported connector". */
  lemma UnsupportedMessageMentions(connector: string)
    ensures Contains(UnsupportedMessage(connector), UnsupportedConnector)
  {
    var msg := UnsupportedMessage(connector);
    assert msg[|ValueErrorPrefix|..|ValueErrorPrefix| + |UnsupportedConnector|] == UnsupportedConnector;
    ContainsAt(msg, UnsupportedConnector, |ValueErrorPrefix|);
  }

  /** Whitespace around a known connector name selects the same adapter. */
  lemma PaddedNameDispatches(w1: string, connector: string, w2: string, eventType: string, payload: Object)
    requires AllSpace(w1) && AllSpace(w2)
    requires AdapterFor(ConnectorKey(connector)).Some?
    ensures ParseConnectorEvent(w1 + connector + w2, eventType, payload)
      == ParseConnectorEvent(connector, eventType, payload)
  {
    StripIgnoresPadding(w1, connector, w2);
  }

  /** The connector name as a caller might capitalise it. */
  const MixedCaseGitHub := "GitHub"

  lemma MixedCaseStrips()
    ensures Strip(MixedCaseGitHub) == MixedCaseGitHub
  {
    assert TrimLeft(MixedCaseGitHub) == MixedCaseGitHub;
    assert TrimRight(MixedCaseGitHub) == MixedCaseGitHub;
  }

  lemma MixedCaseLowers()
    ensures Lower(MixedCaseGitHub) == GitHubName
  {
  }

  /** Upper-case letters in the name select the same adapter as their lower-case forms. */
  lemma MixedCaseNameDispatches(eventType: string, payload: Object)
    ensures ParseConnectorEvent(MixedCaseGitHub, eventType, payload) == ParseGitHub(eventType, payload)
  {
    MixedCaseStrips();
    MixedCaseLowers();
  }
}
