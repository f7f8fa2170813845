/**
 * The plugin object and the SDK configuration record it owns, as mutable
 * objects. Each method follows the Swift method of the same name statement
 * by statement and is proved to leave the state the functions of `Session`
 * describe.
 */
module Plugin {
  import opened Wrappers
  import opened Values
  import Tags
  import Session

  /** `ChatAPIConfiguration`: a reference object the plugin updates field by field. */
  class ChatApiConfiguration {
    var departmentName: Option<string>
    var visitorInfo: Option<Session.VisitorInfo>
    var tags: seq<string>

    /** The record's fields as a value. */
    function Value(): Session.ChatConfig
      reads this
    {
      Session.ChatConfig(departmentName, visitorInfo, tags)
    }

    constructor ()
      ensures Value() == Session.Fresh
    {
      departmentName := None;
      visitorInfo := None;
      tags := [];
    }
  }

  /**
   * `SwiftZendeskPlugin`: the method-channel handler and its optional
   * `chatAPIConfig`, together with the one fact about the Chat SDK its
   * behaviour depends on: whether the singleton `Chat.instance` exists.
   */
  class SwiftZendeskPlugin {
    var chatApiConfig: ChatApiConfiguration?
    var chatInstanceReady: bool

    /** The record the plugin holds, as a value; `None` while `chatAPIConfig` is nil. */
    function Config(): Option<Session.ChatConfig>
      reads this, chatApiConfig
    {
      if chatApiConfig == null then None else Some(chatApiConfig.Value())
    }

    /** The SDK instance and the record, as a value. */
    function State(): Session.PluginState
      reads this, chatApiConfig
    {
      Session.PluginState(chatInstanceReady, Config())
    }

    /** `SwiftZendeskPlugin()` as `register(with:)` creates it: no SDK instance and no record yet. */
    constructor ()
      ensures chatApiConfig == null && State() == Session.Start
    {
      chatApiConfig := null;
      chatInstanceReady := false;
    }

    /** `initChatConfig`: create the record only when there is none; an existing record stays the same object. */
    method InitChatConfig()
      modifies this`chatApiConfig
      ensures Config() == Session.InitChatConfig(old(Config()))
      ensures old(chatApiConfig) != null ==> chatApiConfig == old(chatApiConfig)
      ensures old(chatApiConfig) == null ==> fresh(chatApiConfig)
    {
      if chatApiConfig == null {
        chatApiConfig := new ChatApiConfiguration();
      }
    }

    /** `initialize(dictionary:)`; `Chat.initialize` brings the SDK instance into being. */
    method Initialize(args: Args)
      modifies this
      ensures State() == Session.Initialize(old(State()), args)
      ensures old(chatApiConfig) != null ==> chatApiConfig == old(chatApiConfig)
    {
      var accountKey := StringArg(args, "accountKey");
      var appId := StringArg(args, "appId");
      if accountKey.None? || appId.None? {
        return;
      }
      chatInstanceReady := true;
      InitChatConfig();
    }

    /**
     * `setVisitorInfo(dictionary:)`. `crashed` is the force-unwrap of an
     * absent record, reached only when the SDK instance exists; the
     * optional-chained assignments before it do nothing to an absent record.
     */
    method SetVisitorInfo(args: Args) returns (crashed: bool)
      modifies chatApiConfig
      ensures Session.SetVisitorInfo(old(State()), args) == if crashed then Session.Crash else Session.Next(State())
      ensures crashed ==> State() == old(State())
    {
      var name := StringArg(args, "name");
      var email := StringArg(args, "email");
      var phoneNumber := StringArg(args, "phoneNumber");
      if name.None? || email.None? || phoneNumber.None? {
        return false;
      }
      var department := StringArg(args, "department").GetOr("");
      if chatApiConfig != null {
        chatApiConfig.departmentName := Some(department);
      }
      if chatApiConfig != null {
        chatApiConfig.visitorInfo := Some(Session.VisitorInfo(name.value, email.value, phoneNumber.value));
      }
      // `Chat.instance?.configuration = chatAPIConfig!`: the unwrap runs only when the instance exists
      crashed := chatInstanceReady && chatApiConfig == null;
    }

    /** `addTags(dictionary:)`: append in place, then push the record to the SDK instance if there is one. */
    method AddTags(args: Args) returns (crashed: bool)
      modifies chatApiConfig
      ensures Session.AddTags(old(State()), args) == if crashed then Session.Crash else Session.Next(State())
      ensures crashed ==> State() == old(State())
    {
      var tags := StringListOrEmpty(args, "tags");
      if chatApiConfig != null {
        chatApiConfig.tags := chatApiConfig.tags + tags;
      }
      // `Chat.instance?.configuration = chatAPIConfig!`: the unwrap runs only when the instance exists
      crashed := chatInstanceReady && chatApiConfig == null;
    }

    /** `removeTags(dictionary:)`: filter in place, then push the record to the SDK instance if there is one. */
    method RemoveTags(args: Args) returns (crashed: bool)
      modifies chatApiConfig
      ensures Session.RemoveTags(old(State()), args) == if crashed then Session.Crash else Session.Next(State())
      ensures crashed ==> State() == old(State())
    {
      var tags := StringListOrEmpty(args, "tags");
      if chatApiConfig != null {
        chatApiConfig.tags := Tags.Without(chatApiConfig.tags, tags);
      }
      // `Chat.instance?.configuration = chatAPIConfig!`: the unwrap runs only when the instance exists
      crashed := chatInstanceReady && chatApiConfig == null;
    }

    /**
     * `handle(_:result:)`: `arguments` is `call.arguments as? Dictionary<String, Any>`,
     * whose force-unwrap crashes when absent; `systemVersion` is the device's
     * `UIDevice.current.systemVersion`. `startChat` acts only on SDK and UIKit
     * objects (see module `StartChat`), so here it only force-unwraps and replies.
     */
    method Handle(name: string, arguments: Option<Args>, systemVersion: string) returns (response: Session.Response)
      modifies this, chatApiConfig
      ensures Session.Handle(old(State()), name, arguments, systemVersion) == Session.Outcome(State(), response)
      ensures old(chatApiConfig) != null ==> chatApiConfig == old(chatApiConfig)
    {
      var crashed := false;
      match name {
        case "getPlatformVersion" =>
          return Session.Replied(Session.Text("iOS yo " + systemVersion));
        case "initialize" =>
          if arguments.None? { return Session.Crashed; }
          Initialize(arguments.value);
        case "setVisitorInfo" =>
          if arguments.None? { return Session.Crashed; }
          crashed := SetVisitorInfo(arguments.value);
        case "startChat" =>
          if arguments.None? { return Session.Crashed; }
        case "addTags" =>
          if arguments.None? { return Session.Crashed; }
          crashed := AddTags(arguments.value);
        case "removeTags" =>
          if arguments.None? { return Session.Crashed; }
          crashed := RemoveTags(arguments.value);
        case _ =>
          return Session.Replied(Session.Text("iOS " + systemVersion));
      }
      response := if crashed then Session.Crashed else Session.Replied(Session.Flag(true));
    }
  }
}
