/**
 * `SearchBase.run`: the dispatch a search command performs on the guild's server
 * state. A link query goes straight to playback; otherwise a user who already has
 * an open search panel is told so; otherwise an empty query is refused; otherwise
 * a panel is created, fed the provider's results, and bound only when that succeeds.
 */
module SearchBase {
  import YouTube
  import opened Wrappers

  type UserId = string
  type ChannelId = string

  /** The parts of the invoking command message that the dispatch reads. */
  datatype Message = Message(member: UserId, channel: ChannelId)

  /** A search panel, identified by the user who opened it and the query it shows results for. */
  datatype SearchPanel = SearchPanel(owner: UserId, query: string)

  /** The observable effects of `run` on the server and on the chat, in the order they happen. */
  datatype Effect =
    | BoundChannelUpdated(channel: ChannelId)
    | VoiceJoinRequested(member: UserId)
    | PlayedFromUrl(args: seq<string>, autoStart: bool)
    | ConflictReplied(member: UserId)
    | DestroySubscribed(panel: SearchPanel)
    | ArgumentRequiredReplied
    | PanelCreated(panel: SearchPanel)
    | SearchRequested(query: string)
    | ResultConsumed(panel: SearchPanel)
    | PanelBound(panel: SearchPanel)

  /**
   * What the collaborators whose code is not part of this model report back:
   * the connecting flag once `joinVoiceChannel` has started, whether the conflict
   * reply was delivered, whether `createSearchPanel` returned a panel, and whether
   * `consumeSearchResult` reported success.
   */
  datatype Outcomes = Outcomes(
    connectingAfterJoin: bool,
    replyDelivered: bool,
    panelCreated: bool,
    consumeSucceeded: bool)

  /** Which way `run` went. */
  datatype Path = UrlBypass | Conflict | ArgumentRequired | CreationRefused | SearchUnbound | SearchBound

  /** Which concrete command is running: it selects the `urlCheck` override. */
  datatype Provider = InheritedUrlCheck | YouTubeSearch

  /** `SearchBase.urlCheck`: a command that does not override it never treats a query as a link. */
  function DefaultUrlCheck(query: string): (r: bool)
    ensures !r
  {
    false
  }

  /** The `urlCheck` that `this.urlCheck` resolves to for the running command. */
  function UrlCheck(provider: Provider, query: string): (r: bool)
    ensures r ==> provider == YouTubeSearch && query != ""
  {
    match provider
    case InheritedUrlCheck => DefaultUrlCheck(query)
    case YouTubeSearch => YouTube.UrlCheck(query)
  }

  /** The two steps every invocation performs first. */
  function Preamble(message: Message): seq<Effect>
  {
    [BoundChannelUpdated(message.channel), VoiceJoinRequested(message.member)]
  }

  /** The per-guild server state the dispatch reads and changes. */
  class Server {
    var boundChannel: ChannelId
    var isConnecting: bool
    /** The open search panels, at most one per user. */
    var panels: map<UserId, SearchPanel>
    var log: seq<Effect>

    /**
     * Every open panel is filed under the user who opened it: `bindSearchPanel`
     * files a panel under its owner, and `getSearchPanel` relies on it.
     */
    ghost predicate Valid()
      reads this
    {
      forall u :: u in panels ==> panels[u].owner == u
    }

    constructor (channel: ChannelId)
      ensures Valid()
      ensures boundChannel == channel && !isConnecting && panels == map[] && log == []
    {
      boundChannel := channel;
      isConnecting := false;
      panels := map[];
      log := [];
    }

    /** `hasSearchPanel(userId)`: whether the user has an open panel. */
    predicate HasSearchPanel(user: UserId): (r: bool)
      reads this
      ensures r <==> user in panels
      ensures r && Valid() ==> panels[user].owner == user
    {
      user in panels
    }

    /** `getSearchPanel(userId)`: the user's open panel, which is the user's own. */
    function GetSearchPanel(user: UserId): (panel: SearchPanel)
      reads this
      requires Valid() && user in panels
      ensures panel.owner == user
      ensures panel in panels.Values
    {
      panels[user]
    }

    /** `updateBoundChannel(message)`: later replies go to the channel the command came from. */
    method UpdateBoundChannel(message: Message)
      modifies this`boundChannel, this`log
      ensures boundChannel == message.channel
      ensures log == old(log) + [BoundChannelUpdated(message.channel)]
    {
      boundChannel := message.channel;
      log := log + [BoundChannelUpdated(message.channel)];
    }

    /** `joinVoiceChannel(message)`, started and not awaited; `connecting` is the flag it leaves. */
    method JoinVoiceChannel(message: Message, connecting: bool)
      modifies this`isConnecting, this`log
      ensures isConnecting == connecting
      ensures log == old(log) + [VoiceJoinRequested(message.member)]
    {
      isConnecting := connecting;
      log := log + [VoiceJoinRequested(message.member)];
    }

    /** `playFromURL(message, args, autoStart)`. */
    method PlayFromUrl(args: seq<string>, autoStart: bool)
      modifies this`log
      ensures log == old(log) + [PlayedFromUrl(args, autoStart)]
    {
      log := log + [PlayedFromUrl(args, autoStart)];
    }

    /** The conflict reply with its cancel button; `delivered` is false when sending failed and was logged. */
    method ReplyConflict(user: UserId, delivered: bool) returns (sent: bool)
      modifies this`log
      ensures sent == delivered
      ensures log == old(log) + [ConflictReplied(user)]
    {
      log := log + [ConflictReplied(user)];
      sent := delivered;
    }

    /** `panel.once("destroy", ...)` on an open panel: the reply's button is to be removed when that panel goes. */
    method SubscribeDestroy(panel: SearchPanel)
      requires panel in panels.Values
      modifies this`log
      ensures log == old(log) + [DestroySubscribed(panel)]
    {
      log := log + [DestroySubscribed(panel)];
    }

    /** The reply asking for an argument. */
    method ReplyArgumentRequired()
      modifies this`log
      ensures log == old(log) + [ArgumentRequiredReplied]
    {
      log := log + [ArgumentRequiredReplied];
    }

    /** `createSearchPanel(message, query)`: a new, not yet bound panel, or null when `created` is false. */
    method CreateSearchPanel(message: Message, query: string, created: bool) returns (panel: Option<SearchPanel>)
      modifies this`log
      ensures panel == if created then Some(SearchPanel(message.member, query)) else None
      ensures log == old(log) + if created then [PanelCreated(SearchPanel(message.member, query))] else []
    {
      if created {
        panel := Some(SearchPanel(message.member, query));
        log := log + [PanelCreated(panel.value)];
      } else {
        panel := None;
      }
    }

    /** `searchPanel.consumeSearchResult(this.searchContent(query), this.consumer)`; `succeeded` is what it resolves to. */
    method ConsumeSearchResult(panel: SearchPanel, succeeded: bool) returns (ok: bool)
      modifies this`log
      ensures ok == succeeded
      ensures log == old(log) + [SearchRequested(panel.query), ResultConsumed(panel)]
    {
      log := log + [SearchRequested(panel.query), ResultConsumed(panel)];
      ok := succeeded;
    }

    /** `bindSearchPanel(panel)`: the panel becomes its owner's open panel. */
    method BindSearchPanel(panel: SearchPanel)
      requires Valid()
      modifies this`panels, this`log
      ensures Valid()
      ensures panels == old(panels)[panel.owner := panel]
      ensures log == old(log) + [PanelBound(panel)]
    {
      panels := panels[panel.owner := panel];
      log := log + [PanelBound(panel)];
    }
  }

  /** `SearchBase.run(message, {server, rawArgs, args})`. */
  method Run(server: Server, provider: Provider, message: Message, rawArgs: string, args: seq<string>, env: Outcomes)
    returns (path: Path)
    requires server.Valid()
    modifies server
    ensures server.Valid()
    ensures server.boundChannel == message.channel
    ensures server.isConnecting == env.connectingAfterJoin
    // an open panel is never closed or replaced; at most the caller's own panel is added
    ensures forall u :: u in old(server.panels) ==> u in server.panels && server.panels[u] == old(server.panels)[u]
    ensures server.panels == old(server.panels) || server.panels == old(server.panels)[message.member := SearchPanel(message.member, rawArgs)]
    // 1. a link is played directly, whatever panels are open
    ensures UrlCheck(provider, rawArgs) ==>
      path == UrlBypass && server.panels == old(server.panels) &&
      server.log == old(server.log) + Preamble(message) + [PlayedFromUrl(args, !server.isConnecting)]
    // 2. otherwise an open panel of the caller wins, even over an empty query
    ensures !UrlCheck(provider, rawArgs) && message.member in old(server.panels) ==>
      path == Conflict && server.panels == old(server.panels) &&
      old(server.panels)[message.member].owner == message.member &&
      server.log == old(server.log) + Preamble(message) + [ConflictReplied(message.member)]
                    + (if env.replyDelivered then [DestroySubscribed(old(server.panels)[message.member])] else [])
    // 3. otherwise an empty query is refused and nothing is searched
    ensures !UrlCheck(provider, rawArgs) && message.member !in old(server.panels) && rawArgs == "" ==>
      path == ArgumentRequired && server.panels == old(server.panels) &&
      server.log == old(server.log) + Preamble(message) + [ArgumentRequiredReplied]
    // 4. otherwise a panel is asked for; without one nothing is searched
    ensures !UrlCheck(provider, rawArgs) && message.member !in old(server.panels) && rawArgs != "" && !env.panelCreated ==>
      path == CreationRefused && server.panels == old(server.panels) &&
      server.log == old(server.log) + Preamble(message)
    // 5. with one, the results are consumed and the panel is bound exactly when that succeeded
    ensures !UrlCheck(provider, rawArgs) && message.member !in old(server.panels) && rawArgs != "" && env.panelCreated ==>
      var panel := SearchPanel(message.member, rawArgs);
      (path == SearchBound <==> env.consumeSucceeded) &&
      (path == SearchUnbound <==> !env.consumeSucceeded) &&
      server.panels == (if env.consumeSucceeded then old(server.panels)[message.member := panel] else old(server.panels)) &&
      server.log == old(server.log) + Preamble(message)
                    + [PanelCreated(panel), SearchRequested(rawArgs), ResultConsumed(panel)]
                    + (if env.consumeSucceeded then [PanelBound(panel)] else [])
  {
    server.UpdateBoundChannel(message);
    server.JoinVoiceChannel(message, env.connectingAfterJoin);
    if UrlCheck(provider, rawArgs) {
      server.PlayFromUrl(args, !server.isConnecting);
      return UrlBypass;
    }
    if server.HasSearchPanel(message.member) {
      var sent := server.ReplyConflict(message.member, env.replyDelivered);
      if sent {
        server.SubscribeDestroy(server.GetSearchPanel(message.member));
      }
      return Conflict;
    }
    if rawArgs != "" {
      var panel := server.CreateSearchPanel(message, rawArgs, env.panelCreated);
      if panel.None? {
        return CreationRefused;
      }
      var ok := server.ConsumeSearchResult(panel.value, env.consumeSucceeded);
      if ok {
        server.BindSearchPanel(panel.value);
        path := SearchBound;
      } else {
        path := SearchUnbound;
      }
    } else {
      server.ReplyArgumentRequired();
      path := ArgumentRequired;
    }
  }

  /**
   * Exclusivity: once a user's search has bound a panel, the same user's next
   * search that is not a link is turned away and the first panel stays open.
   */
  method SecondSearchConflicts(server: Server, message: Message, first: string, second: string,
                               args: seq<string>, env1: Outcomes, env2: Outcomes)
    returns (path1: Path, path2: Path)
    requires server.Valid() && message.member !in server.panels
    requires first != "" && env1.panelCreated && env1.consumeSucceeded
    requires !YouTube.UrlCheck(first) && !YouTube.UrlCheck(second)
    modifies server
    ensures path1 == SearchBound && path2 == Conflict
    ensures server.panels == old(server.panels)[message.member := SearchPanel(message.member, first)]
  {
    path1 := Run(server, YouTubeSearch, message, first, args, env1);
    path2 := Run(server, YouTubeSearch, message, second, args, env2);
  }

  /** A link from a user with an open panel is still played, and starts at once when the player is not connecting. */
  method LinkBypassesOpenPanel(server: Server, message: Message, args: seq<string>, env: Outcomes)
    returns (path: Path)
    requires server.Valid() && message.member in server.panels && !env.connectingAfterJoin
    modifies server
    ensures path == UrlBypass && server.panels == old(server.panels)
    ensures |server.log| > 0 && server.log[|server.log| - 1] == PlayedFromUrl(args, true)
  {
    YouTube.UrlCheckExamples();
    path := Run(server, YouTubeSearch, message, "https://example.com/v1", args, env);
  }
}
