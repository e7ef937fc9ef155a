/** `WebhookSender`: which webhook URLs the tracker posts to, and how `send` combines the
    outcome of each post. The HTTP request itself is outside the model: whether a post
    succeeds is an input. */
module Webhooks {
  import opened Wrappers
  import opened PyConfig

  datatype Channel = Discord | Slack | Teams

  /** The three URLs the constructor keeps; `""` means the channel is not configured. */
  datatype Urls = Urls(discord: string, slack: string, teams: string)

  /** One request made by `_send_discord`, `_send_slack` or `_send_teams`. */
  datatype Post = Post(channel: Channel, url: string, message: string)

  function UrlOf(u: Urls, ch: Channel): string {
    match ch
    case Discord => u.discord
    case Slack => u.slack
    case Teams => u.teams
  }

  /** `integrations.get(name, {}).get('webhook_url', '') if ….get('enabled') else ''`. */
  function EntryUrl(e: Option<IntegrationEntry>): string {
    if e.Some? && e.value.enabled then e.value.webhookUrl.GetOr("") else ""
  }

  /** The URL selection of `__init__`, with the legacy `discord_bot.webhook_url` used when
      the Discord integration gives none. */
  function SelectUrls(w: WebhookSection): Urls {
    var discord := EntryUrl(w.discord);
    Urls(if discord != "" then discord else w.legacyDiscordUrl.GetOr(""), EntryUrl(w.slack), EntryUrl(w.teams))
  }

  /** Slack and Teams are configured only through an enabled integration with a URL; Discord
      through one, or else through the legacy URL, which is used only when the Discord
      integration gives no URL. */
  lemma SelectUrlsSpec(w: WebhookSection)
    ensures var u := SelectUrls(w);
      && (u.slack != "" <==> w.slack.Some? && w.slack.value.enabled && w.slack.value.webhookUrl.GetOr("") != "")
      && (u.slack != "" ==> u.slack == w.slack.value.webhookUrl.value)
      && (u.teams != "" <==> w.teams.Some? && w.teams.value.enabled && w.teams.value.webhookUrl.GetOr("") != "")
      && (u.teams != "" ==> u.teams == w.teams.value.webhookUrl.value)
      && (EntryUrl(w.discord) != "" ==> u.discord == w.discord.value.webhookUrl.value)
      && (EntryUrl(w.discord) == "" ==> u.discord == w.legacyDiscordUrl.GetOr(""))
      && (u.discord != "" ==> (w.discord.Some? && w.discord.value.enabled) || w.legacyDiscordUrl.Some?)
  {
  }

  /** The post `send` makes to one channel: none when its URL is empty. */
  function PostTo(u: Urls, ch: Channel, message: string): seq<Post> {
    if UrlOf(u, ch) != "" then [Post(ch, UrlOf(u, ch), message)] else []
  }

  /** The posts one `send(message)` makes: Discord, then Slack, then Teams. */
  function Attempts(u: Urls, message: string): seq<Post> {
    PostTo(u, Discord, message) + PostTo(u, Slack, message) + PostTo(u, Teams, message)
  }

  /** Every post of a `send` goes to a configured channel at that channel's URL, carrying
      the message; every configured channel gets one, and no channel gets two. */
  lemma AttemptsSpec(u: Urls, message: string)
    ensures var ps := Attempts(u, message);
      && (forall p :: p in ps ==> UrlOf(u, p.channel) != "" && p.url == UrlOf(u, p.channel) && p.message == message)
      && (forall ch :: UrlOf(u, ch) != "" ==> Post(ch, UrlOf(u, ch), message) in ps)
      && (forall i, j :: 0 <= i < j < |ps| ==> ps[i].channel != ps[j].channel)
  {
    var ps := Attempts(u, message);
    forall ch | UrlOf(u, ch) != ""
      ensures Post(ch, UrlOf(u, ch), message) in ps
    {
      assert Post(ch, UrlOf(u, ch), message) in PostTo(u, ch, message);
    }
  }

  class WebhookSender {
    const discordUrl: string
    const slackUrl: string
    const teamsUrl: string
    /** The requests made so far, oldest first. */
    var posts: seq<Post>

    function Selected(): Urls {
      Urls(discordUrl, slackUrl, teamsUrl)
    }

    constructor(w: WebhookSection)
      ensures Selected() == SelectUrls(w) && posts == []
    {
      var discord := EntryUrl(w.discord);
      if discord == "" {
        discord := w.legacyDiscordUrl.GetOr("");
      }
      discordUrl, slackUrl, teamsUrl := discord, EntryUrl(w.slack), EntryUrl(w.teams);
      posts := [];
    }

    /** Posts `message` to each configured channel in turn; `delivered` says which posts
        succeed. The result is true when at least one did. */
    method Send(message: string, delivered: Channel -> bool) returns (sent: bool)
      modifies this
      ensures posts == old(posts) + Attempts(Selected(), message)
      ensures sent <==> exists ch :: UrlOf(Selected(), ch) != "" && delivered(ch)
    {
      sent := false;
      ghost var before := posts;
      if discordUrl != "" {
        posts := posts + [Post(Discord, discordUrl, message)];
        sent := delivered(Discord) || sent;
      }
      assert posts == before + PostTo(Selected(), Discord, message);
      if slackUrl != "" {
        posts := posts + [Post(Slack, slackUrl, message)];
        sent := delivered(Slack) || sent;
      }
      assert posts == before + PostTo(Selected(), Discord, message) + PostTo(Selected(), Slack, message);
      if teamsUrl != "" {
        posts := posts + [Post(Teams, teamsUrl, message)];
        sent := delivered(Teams) || sent;
      }
      if sent {
        assert (delivered(Discord) && discordUrl != "") || (delivered(Slack) && slackUrl != "")
          || (delivered(Teams) && teamsUrl != "");
      }
    }
  }
}
