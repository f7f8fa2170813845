/**
 * The part of `startChat` that is the plugin's own logic: the guard over the
 * five required arguments, the request it builds for the SDK's UI builder,
 * and which colours it applies to the global appearance objects.
 */
module StartChat {
  import opened Wrappers
  import opened Values
  import Colour

  /** The `ChatConfiguration` flags and the `MessagingConfiguration` name handed to the UI builder. */
  datatype ChatRequest = ChatRequest(
    isPreChatFormEnabled: bool,
    isAgentAvailabilityEnabled: bool,
    isChatTranscriptPromptEnabled: bool,
    isOfflineFormEnabled: bool,
    messagingName: string)

  /** The guard of `startChat`: four flags present as booleans and `messagingName` as a string. */
  function Request(args: Args): (r: Option<ChatRequest>)
    ensures r.Some? <==>
      BoolArg(args, "isPreChatFormEnabled").Some? && BoolArg(args, "isAgentAvailabilityEnabled").Some? &&
      BoolArg(args, "isChatTranscriptPromptEnabled").Some? && BoolArg(args, "isOfflineFormEnabled").Some? &&
      StringArg(args, "messagingName").Some?
    ensures r.Some? ==>
      args["isPreChatFormEnabled"] == Bool(r.value.isPreChatFormEnabled) &&
      args["isAgentAvailabilityEnabled"] == Bool(r.value.isAgentAvailabilityEnabled) &&
      args["isChatTranscriptPromptEnabled"] == Bool(r.value.isChatTranscriptPromptEnabled) &&
      args["isOfflineFormEnabled"] == Bool(r.value.isOfflineFormEnabled) &&
      args["messagingName"] == Str(r.value.messagingName)
  {
    match (BoolArg(args, "isPreChatFormEnabled"), BoolArg(args, "isAgentAvailabilityEnabled"),
           BoolArg(args, "isChatTranscriptPromptEnabled"), BoolArg(args, "isOfflineFormEnabled"),
           StringArg(args, "messagingName"))
    case (Some(preChat), Some(availability), Some(transcript), Some(offline), Some(name)) =>
      Some(ChatRequest(preChat, availability, transcript, offline, name))
    case _ => None
  }

  /** An optional `Int` argument, read as a packed colour. */
  function ColourArg(args: Args, key: string): (r: Option<Colour.UiColor>)
    ensures r.Some? <==> IntArg(args, key).Some?
    ensures r.Some? ==> r.value == Colour.UiColorFromHex(args[key].i)
  {
    match IntArg(args, key)
    case Some(v) => Some(Colour.UiColorFromHex(v))
    case None => None
  }

  /**
   * The colours a call sets: the theme's primary colour, the navigation
   * bar's tint and its title colour; `None` leaves one as it was.
   */
  datatype Styling = Styling(primaryColor: Option<Colour.UiColor>,
                             navigationBarColor: Option<Colour.UiColor>,
                             navigationTitleColor: Option<Colour.UiColor>)

  /**
   * What `startChat` applies. The primary colour is set from `primaryColor`
   * before the UI is built and set again from the integer `iosBackButtonTitle`
   * after it; `built` says whether `ChatEngine.engine()` and `buildUI` returned
   * without throwing, which only the SDK decides. The navigation bar colours
   * are set before the UI is built, so they do not depend on `built`.
   */
  function StylingOf(args: Args, built: bool): (r: Styling)
    ensures Request(args).None? ==> r == Styling(None, None, None)
    ensures r.primaryColor.Some? ==> IntArg(args, "primaryColor").Some? || (built && IntArg(args, "iosBackButtonTitle").Some?)
    ensures Request(args).Some? && !(built && IntArg(args, "iosBackButtonTitle").Some?) ==>
      r.primaryColor == ColourArg(args, "primaryColor")
    ensures Request(args).Some? ==>
      r.navigationBarColor == ColourArg(args, "iosNavigationBarColor") &&
      r.navigationTitleColor == ColourArg(args, "iosNavigationTitleColor")
  {
    if Request(args).None? then Styling(None, None, None)
    else
      var primary := if built && IntArg(args, "iosBackButtonTitle").Some? then ColourArg(args, "iosBackButtonTitle")
                     else ColourArg(args, "primaryColor");
      Styling(primary, ColourArg(args, "iosNavigationBarColor"), ColourArg(args, "iosNavigationTitleColor"))
  }

  /** A call that fails the guard sets no colour, whatever it carries. */
  lemma GuardFailureSetsNothing(args: Args, built: bool)
    requires Request(args).None?
    ensures StylingOf(args, built) == Styling(None, None, None)
  {
  }

  /** Once the UI is built, an integer `iosBackButtonTitle` wins over `primaryColor` as the theme colour. */
  lemma BackButtonKeyOverridesPrimary(args: Args)
    requires Request(args).Some? && "iosBackButtonTitle" in args && args["iosBackButtonTitle"].Int?
    ensures StylingOf(args, true).primaryColor == Some(Colour.UiColorFromHex(args["iosBackButtonTitle"].i))
  {
  }

  /** When building the UI throws, the theme colour is the one from `primaryColor`, if any. */
  lemma BuildFailureKeepsPrimary(args: Args)
    requires Request(args).Some?
    ensures StylingOf(args, false).primaryColor == ColourArg(args, "primaryColor")
  {
  }
}
