/** The bot lists the BotBlock API knows: each site's identifier and the
    HTTP methods it accepts. */
module Sites {
  import opened Errors

  datatype HttpMethod = Get | Post

  datatype Site =
    | ArcaneCenterXyz
    | BladebotlistXyz
    | BlistXyz
    | BotlistSpace
    | BotsdatabaseCom
    | BotsDiscordlabsOrg
    | BotsDistopXyz
    | BotsfordiscordCom
    | BotsIdledevOrg
    | BotsOndiscordXyz
    | DblistaPl
    | DiscordappsDev
    | DiscordBoats
    | DiscordbotdirectoryNet
    | DiscordbotlistCom
    | DiscordbotsCo
    | DiscordBotsGg
    | DiscordextremelistXyz
    | DiscordlistologyCom
    | DisforgeCom
    | FateslistXyz
    | InfinitybotlistCom
    | ParadisebotsNet
    | SpaceBotListXyz
    | TopcordXyz
    | VoidbotsNet
    | WonderbotlistCom
    | YablXyz

  /** `getName()`: the identifier the BotBlock API uses for the site. */
  function Name(site: Site): (name: string)
    ensures |name| > 0
  {
    match site
      case ArcaneCenterXyz => "arcane-center.xyz"
      case BladebotlistXyz => "bladebotlist.xyz"
      case BlistXyz => "blist.xyz"
      case BotlistSpace => "botlist.space"
      case BotsdatabaseCom => "botsdatabase.com"
      case BotsDiscordlabsOrg => "discordlabs.org"
      case BotsDistopXyz => "bots.distop.xyz"
      case BotsfordiscordCom => "botsfordiscord.com"
      case BotsIdledevOrg => "bots.idledev.org"
      case BotsOndiscordXyz => "bots.ondiscord.xyz"
      case DblistaPl => "dblista.pl"
      case DiscordappsDev => "discordapps.dev"
      case DiscordBoats => "discord.boats"
      case DiscordbotdirectoryNet => "discordbotdirectory.net"
      case DiscordbotlistCom => "discordbotlist.com"
      case DiscordbotsCo => "discordbots.co"
      case DiscordBotsGg => "discord.bots.gg"
      case DiscordextremelistXyz => "discordextremelist.xyz"
      case DiscordlistologyCom => "discordlistology.com"
      case DisforgeCom => "disforge.com"
      case FateslistXyz => "fateslist.xyz"
      case InfinitybotlistCom => "infinitybotlist.com"
      case ParadisebotsNet => "paradisebots.net"
      case SpaceBotListXyz => "space-bot-list.xyz"
      case TopcordXyz => "topcord.xyz"
      case VoidbotsNet => "voidbots.net"
      case WonderbotlistCom => "wonderbotlist.com"
      case YablXyz => "yabl.xyz"
  }

  /** The methods the site was declared with; a site declared without any gets an empty list. */
  function Methods(site: Site): seq<HttpMethod> {
    match site
      case ArcaneCenterXyz => [Post]
      case BladebotlistXyz => [Get, Post]
      case BlistXyz => [Get, Post]
      case BotlistSpace => [Get, Post]
      case BotsdatabaseCom => [Get, Post]
      case BotsDiscordlabsOrg => [Get, Post]
      case BotsDistopXyz => []
      case BotsfordiscordCom => [Get, Post]
      case BotsIdledevOrg => []
      case BotsOndiscordXyz => [Post]
      case DblistaPl => [Get]
      case DiscordappsDev => [Get, Post]
      case DiscordBoats => [Get, Post]
      case DiscordbotdirectoryNet => [Get]
      case DiscordbotlistCom => [Get, Post]
      case DiscordbotsCo => [Get, Post]
      case DiscordBotsGg => [Get, Post]
      case DiscordextremelistXyz => [Get, Post]
      case DiscordlistologyCom => [Get, Post]
      case DisforgeCom => [Post]
      case FateslistXyz => [Get, Post]
      case InfinitybotlistCom => [Get, Post]
      case ParadisebotsNet => [Get, Post]
      case SpaceBotListXyz => [Get, Post]
      case TopcordXyz => [Get, Post]
      case VoidbotsNet => [Get, Post]
      case WonderbotlistCom => [Get, Post]
      case YablXyz => [Get, Post]
  }

  /** `supportsGet()`: the list is non-empty and contains GET. */
  predicate SupportsGet(site: Site) {
    |Methods(site)| != 0 && Get in Methods(site)
  }

  /** `supportsPost()`: the list is non-empty and contains POST. */
  predicate SupportsPost(site: Site) {
    |Methods(site)| != 0 && Post in Methods(site)
  }

  /** The site a BotBlock identifier stands for, if any. */
  function FromName(name: string): Option<Site> {
    if |name| == 17 && name == "arcane-center.xyz" then Some(ArcaneCenterXyz)
    else if |name| == 16 && name == "bladebotlist.xyz" then Some(BladebotlistXyz)
    else if |name| == 9 && name == "blist.xyz" then Some(BlistXyz)
    else if |name| == 13 && name == "botlist.space" then Some(BotlistSpace)
    else if |name| == 16 && name == "botsdatabase.com" then Some(BotsdatabaseCom)
    else if |name| == 15 && name == "discordlabs.org" then Some(BotsDiscordlabsOrg)
    else if |name| == 15 && name == "bots.distop.xyz" then Some(BotsDistopXyz)
    else if |name| == 18 && name == "botsfordiscord.com" then Some(BotsfordiscordCom)
    else if |name| == 16 && name == "bots.idledev.org" then Some(BotsIdledevOrg)
    else if |name| == 18 && name == "bots.ondiscord.xyz" then Some(BotsOndiscordXyz)
    else if |name| == 10 && name == "dblista.pl" then Some(DblistaPl)
    else if |name| == 15 && name == "discordapps.dev" then Some(DiscordappsDev)
    else if |name| == 13 && name == "discord.boats" then Some(DiscordBoats)
    else if |name| == 23 && name == "discordbotdirectory.net" then Some(DiscordbotdirectoryNet)
    else if |name| == 18 && name == "discordbotlist.com" then Some(DiscordbotlistCom)
    else if |name| == 14 && name == "discordbots.co" then Some(DiscordbotsCo)
    else if |name| == 15 && name == "discord.bots.gg" then Some(DiscordBotsGg)
    else if |name| == 22 && name == "discordextremelist.xyz" then Some(DiscordextremelistXyz)
    else if |name| == 20 && name == "discordlistology.com" then Some(DiscordlistologyCom)
    else if |name| == 12 && name == "disforge.com" then Some(DisforgeCom)
    else if |name| == 13 && name == "fateslist.xyz" then Some(FateslistXyz)
    else if |name| == 19 && name == "infinitybotlist.com" then Some(InfinitybotlistCom)
    else if |name| == 16 && name == "paradisebots.net" then Some(ParadisebotsNet)
    else if |name| == 18 && name == "space-bot-list.xyz" then Some(SpaceBotListXyz)
    else if |name| == 11 && name == "topcord.xyz" then Some(TopcordXyz)
    else if |name| == 12 && name == "voidbots.net" then Some(VoidbotsNet)
    else if |name| == 17 && name == "wonderbotlist.com" then Some(WonderbotlistCom)
    else if |name| == 8 && name == "yabl.xyz" then Some(YablXyz)
    else None
  }

  /** Every site is found again under its identifier. */
  lemma NameRoundTrip(site: Site)
    ensures FromName(Name(site)) == Some(site)
  {
    match site {
      case ArcaneCenterXyz => FoundArcaneCenterXyz();
      case BladebotlistXyz => FoundBladebotlistXyz();
      case BlistXyz => FoundBlistXyz();
      case BotlistSpace => FoundBotlistSpace();
      case BotsdatabaseCom => FoundBotsdatabaseCom();
      case BotsDiscordlabsOrg => FoundBotsDiscordlabsOrg();
      case BotsDistopXyz => FoundBotsDistopXyz();
      case BotsfordiscordCom => FoundBotsfordiscordCom();
      case BotsIdledevOrg => FoundBotsIdledevOrg();
      case BotsOndiscordXyz => FoundBotsOndiscordXyz();
      case DblistaPl => FoundDblistaPl();
      case DiscordappsDev => FoundDiscordappsDev();
      case DiscordBoats => FoundDiscordBoats();
      case DiscordbotdirectoryNet => FoundDiscordbotdirectoryNet();
      case DiscordbotlistCom => FoundDiscordbotlistCom();
      case DiscordbotsCo => FoundDiscordbotsCo();
      case DiscordBotsGg => FoundDiscordBotsGg();
      case DiscordextremelistXyz => FoundDiscordextremelistXyz();
      case DiscordlistologyCom => FoundDiscordlistologyCom();
      case DisforgeCom => FoundDisforgeCom();
      case FateslistXyz => FoundFateslistXyz();
      case InfinitybotlistCom => FoundInfinitybotlistCom();
      case ParadisebotsNet => FoundParadisebotsNet();
      case SpaceBotListXyz => FoundSpaceBotListXyz();
      case TopcordXyz => FoundTopcordXyz();
      case VoidbotsNet => FoundVoidbotsNet();
      case WonderbotlistCom => FoundWonderbotlistCom();
      case YablXyz => FoundYablXyz();
    }
  }

  // One site at a time, so that each proof compares a single identifier
  // against the others.
  lemma FoundArcaneCenterXyz() ensures FromName(Name(ArcaneCenterXyz)) == Some(ArcaneCenterXyz) { }
  lemma FoundBladebotlistXyz() ensures FromName(Name(BladebotlistXyz)) == Some(BladebotlistXyz) { }
  lemma FoundBlistXyz() ensures FromName(Name(BlistXyz)) == Some(BlistXyz) { }
  lemma FoundBotlistSpace() ensures FromName(Name(BotlistSpace)) == Some(BotlistSpace) { }
  lemma FoundBotsdatabaseCom() ensures FromName(Name(BotsdatabaseCom)) == Some(BotsdatabaseCom) { }
  lemma FoundBotsDiscordlabsOrg() ensures FromName(Name(BotsDiscordlabsOrg)) == Some(BotsDiscordlabsOrg) { }
  lemma FoundBotsDistopXyz() ensures FromName(Name(BotsDistopXyz)) == Some(BotsDistopXyz) { }
  lemma FoundBotsfordiscordCom() ensures FromName(Name(BotsfordiscordCom)) == Some(BotsfordiscordCom) { }
  lemma FoundBotsIdledevOrg() ensures FromName(Name(BotsIdledevOrg)) == Some(BotsIdledevOrg) { }
  lemma FoundBotsOndiscordXyz() ensures FromName(Name(BotsOndiscordXyz)) == Some(BotsOndiscordXyz) { }
  lemma FoundDblistaPl() ensures FromName(Name(DblistaPl)) == Some(DblistaPl) { }
  lemma FoundDiscordappsDev() ensures FromName(Name(DiscordappsDev)) == Some(DiscordappsDev) { }
  lemma FoundDiscordBoats() ensures FromName(Name(DiscordBoats)) == Some(DiscordBoats) { }
  lemma FoundDiscordbotdirectoryNet() ensures FromName(Name(DiscordbotdirectoryNet)) == Some(DiscordbotdirectoryNet) { }
  lemma FoundDiscordbotlistCom() ensures FromName(Name(DiscordbotlistCom)) == Some(DiscordbotlistCom) { }
  lemma FoundDiscordbotsCo() ensures FromName(Name(DiscordbotsCo)) == Some(DiscordbotsCo) { }
  lemma FoundDiscordBotsGg() ensures FromName(Name(DiscordBotsGg)) == Some(DiscordBotsGg) { }
  lemma FoundDiscordextremelistXyz() ensures FromName(Name(DiscordextremelistXyz)) == Some(DiscordextremelistXyz) { }
  lemma FoundDiscordlistologyCom() ensures FromName(Name(DiscordlistologyCom)) == Some(DiscordlistologyCom) { }
  lemma FoundDisforgeCom() ensures FromName(Name(DisforgeCom)) == Some(DisforgeCom) { }
  lemma FoundFateslistXyz() ensures FromName(Name(FateslistXyz)) == Some(FateslistXyz) { }
  lemma FoundInfinitybotlistCom() ensures FromName(Name(InfinitybotlistCom)) == Some(InfinitybotlistCom) { }
  lemma FoundParadisebotsNet() ensures FromName(Name(ParadisebotsNet)) == Some(ParadisebotsNet) { }
  lemma FoundSpaceBotListXyz() ensures FromName(Name(SpaceBotListXyz)) == Some(SpaceBotListXyz) { }
  lemma FoundTopcordXyz() ensures FromName(Name(TopcordXyz)) == Some(TopcordXyz) { }
  lemma FoundVoidbotsNet() ensures FromName(Name(VoidbotsNet)) == Some(VoidbotsNet) { }
  lemma FoundWonderbotlistCom() ensures FromName(Name(WonderbotlistCom)) == Some(WonderbotlistCom) { }
  lemma FoundYablXyz() ensures FromName(Name(YablXyz)) == Some(YablXyz) { }

  /** No two sites share an identifier, so a token map keyed by identifier
      holds at most one token per site. */
  lemma NamesDistinct(a: Site, b: Site)
    ensures Name(a) == Name(b) <==> a == b
  {
    NameRoundTrip(a);
    NameRoundTrip(b);
  }

  /** The emptiness test in `supportsGet`/`supportsPost` is redundant: support
      is exactly membership of the method. */
  lemma SupportIsMembership(site: Site)
    ensures SupportsGet(site) <==> Get in Methods(site)
    ensures SupportsPost(site) <==> Post in Methods(site)
  {
  }

  /** The two sites declared without methods support neither GET nor POST. */
  lemma SitesWithoutMethods(site: Site)
    ensures Methods(site) == [] <==> site == BotsDistopXyz || site == BotsIdledevOrg
    ensures Methods(site) == [] ==> !SupportsGet(site) && !SupportsPost(site)
  {
  }

  /** The sites that accept POST but not GET, and those that accept GET but not POST. */
  lemma OneWaySites(site: Site)
    ensures SupportsPost(site) && !SupportsGet(site) <==>
      site in {ArcaneCenterXyz, BotsOndiscordXyz, DisforgeCom}
    ensures SupportsGet(site) && !SupportsPost(site) <==>
      site in {DblistaPl, DiscordbotdirectoryNet}
  {
  }
}
