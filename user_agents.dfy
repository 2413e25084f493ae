/** The User-Agent strings the actions hand to their request handler. */
module UserAgents {
  import opened Errors
  import opened Numbers
  import Strings
  import CheckUtil
  import opened Discord

  /** The library version the current modules report. */
  const Version: string := "6.7.1"

  /** The placeholder a user-supplied agent template carries for the bot id. */
  const Placeholder: string := "{id}"

  /** The template the actions use when given only a bot id. */
  const DefaultAgentPrefix: string := "JavaBotBlockAPI-0000/API_VERSION (Unknown; +https://jbba.dev) DBots/"
  const DefaultAgent: string := DefaultAgentPrefix + Placeholder

  /** The default template of the lookups, which carries the version number. */
  const VersionedDefaultAgent: string := "JavaBotBlockAPI-0000/" + Version + " (Unknown; +https://jbba.dev) DBots/" + Placeholder

  /** `userAgent.replace("{id}", id)`. */
  function Templated(template: string, id: string): string {
    Strings.ReplaceAll(template, Placeholder, id)
  }

  /** A template made of placeholder-free text followed by the placeholder
      becomes that text followed by the id. */
  lemma {:induction false} TemplateEndsWithId(prefix: string, id: string)
    requires forall i :: 0 <= i < |prefix| ==> prefix[i] != '{'
    ensures Templated(prefix + Placeholder, id) == prefix + id
  {
    Strings.ReplaceAfterPlainPrefix(prefix, Placeholder, id, "");
    assert prefix + Placeholder + "" == prefix + Placeholder;
    assert Strings.ReplaceAll("", Placeholder, id) == "";
  }

  /** A template without the placeholder is used as it is. */
  lemma {:induction false} TemplateWithoutPlaceholder(template: string, id: string)
    requires forall i :: 0 <= i < |template| ==> template[i] != '{'
    ensures Templated(template, id) == template
  {
    forall i ensures !Strings.OccursAt(template, Placeholder, i) {
      if 0 <= i && i + |Placeholder| <= |template| {
        assert template[i..i + |Placeholder|][0] == template[i];
      }
    }
    Strings.ReplaceAbsent(template, Placeholder, id);
  }

  /** The constructor checks of the actions that take a user agent: the agent,
      then the id, must not be empty. */
  function CheckAgentAndId(userAgent: string, id: string): (r: Outcome)
    ensures r.Pass? <==> |userAgent| > 0 && |id| > 0
    ensures |userAgent| == 0 ==> r == Fail(NullPointer("UserAgent" + " may not be empty."))
    ensures |userAgent| > 0 && |id| == 0 ==> r == Fail(NullPointer("ID" + " may not be empty."))
  {
    Then(CheckUtil.NotEmpty(userAgent, "UserAgent"), CheckUtil.NotEmpty(id, "ID"))
  }

  /** `"%s-%s/%s (<library>) DBots/%s"`: bot name, discriminator, version,
      library and bot id. */
  function BotAgent(name: string, discriminator: string, version: string, library: string, id: string): (ua: string)
    ensures var tail := " (" + library + ") DBots/" + id;
      |ua| >= |tail| && ua[|ua| - |tail|..] == tail
    ensures var head := name + "-" + discriminator + "/" + version;
      |ua| >= |head| && ua[..|head|] == head
    ensures |ua| == |name| + |discriminator| + |version| + |library| + |id| + 12
  {
    var head := name + "-" + discriminator + "/" + version;
    var tail := " (" + library + ") DBots/" + id;
    assert head + tail == name + "-" + discriminator + "/" + version + " (" + library + ") DBots/" + id;
    name + "-" + discriminator + "/" + version + " (" + library + ") DBots/" + id
  }
}
