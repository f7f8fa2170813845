# Zendesk Flutter plugin (iOS side): a Dafny model

This project models the Flutter method-channel handler `SwiftZendeskPlugin`
of the iOS plugin that exposes the Zendesk Chat SDK to a Flutter app. The
handler receives a command name and an untyped argument dictionary. It
validates the dictionary with guard clauses and keeps one optional, mutable
`ChatAPIConfiguration` record holding a department name, the visitor's name,
email and phone, and an ordered list of tags. It replies either `true` or a
version string.

Files:

- `wrappers.dfy`: `Option`, Swift's optionals.
- `values.dfy`: the argument dictionary (`map<string, Value>`), Swift's 64-bit `Int`, and
  the conditional casts `dictionary[key] as? T` the plugin uses.
- `tags.dfy`: the filter `removeAll(where:)` applies to the tag list, and its laws.
- `colour.dfy`: `uiColorFromHex`, which splits a packed `0xRRGGBB` integer into channels
  using masks and shifts over the two's-complement bits of a Swift `Int`.
- `session.dfy`: for each command, the state afterwards (SDK instance and record) and the reply, as functions
  of the state before the call. It also holds the dispatcher, runs of several calls,
  and the properties of both.
- `start_chat.dfy`: the guard of `startChat`, the request it builds, and the colours
  it applies to the global appearance objects.
- `plugin.dfy`: the classes `ChatApiConfiguration` and `SwiftZendeskPlugin`. Their
  methods follow the Swift methods statement by statement. Each is proved to leave
  the state that `session.dfy` describes.

Crashes are modelled as an outcome, not as preconditions. The source has two
kinds of force-unwrap. `dic!` crashes when the call carries no dictionary; this
applies to the five commands other than `getPlatformVersion`. `chatAPIConfig!`
appears in `setVisitorInfo` (past its guard), `addTags` and `removeTags`. There
it is the right-hand side of `Chat.instance?.configuration = chatAPIConfig!`,
which Swift evaluates only when the SDK singleton `Chat.instance` exists. The
model's state is therefore a pair: whether `Chat.instance` exists, and the
optional record. `initialize` with valid credentials creates both. The second
kind of unwrap crashes only when the instance exists and the record does not.
From a newly registered plugin that combination never arises. So a run of
calls crashes only at a call that carries no dictionary, and tag or visitor
commands sent before `initialize` are ignored and still reply `true`. A crash
ends the process, so a run stops at the first one.

## Model

| member | source | states |
|---|---|---|
| Values.StringArg | ios/Classes/SwiftZendeskPlugin.swift:50-51 | `as? String` succeeds exactly when the key is present and holds a string, and yields that string |
| Values.BoolArg | ios/Classes/SwiftZendeskPlugin.swift:82-85 | `as? Bool` succeeds exactly when the key holds a boolean, and yields it |
| Values.IntArg | ios/Classes/SwiftZendeskPlugin.swift:90 | `as? Int` succeeds exactly when the key holds an integer, and yields it |
| Values.StringListOrEmpty | ios/Classes/SwiftZendeskPlugin.swift:70 | `as? Array<String> ?? []`: the list when the key holds a list of strings, otherwise empty |
| Tags.Without | ios/Classes/SwiftZendeskPlugin.swift:77 | the filtered list is no longer than the original; every element comes from it and is unlisted; every unlisted tag of the original is still there |
| Tags.WithoutConcat | ios/Classes/SwiftZendeskPlugin.swift:77 | filtering distributes over concatenation, so kept tags keep their relative order |
| Tags.WithoutNothingListed | ios/Classes/SwiftZendeskPlugin.swift:77 | a list with no listed tag is left unchanged |
| Tags.WithoutIdempotent | ios/Classes/SwiftZendeskPlugin.swift:77 | filtering twice by the same list equals filtering once |
| Tags.WithoutOccurrences | ios/Classes/SwiftZendeskPlugin.swift:77 | a listed tag has no occurrence left; an unlisted tag keeps exactly as many occurrences as before |
| Tags.WithoutAllListed | ios/Classes/SwiftZendeskPlugin.swift:77 | a list whose tags are all listed is emptied |
| Tags.AddedThenRemoved | ios/Classes/SwiftZendeskPlugin.swift:69-79 | removing a list of tags after appending only listed tags gives the earlier list, filtered |
| Colour.ChannelsOfBits | ios/Classes/SwiftZendeskPlugin.swift:148-150 | each masked and shifted channel lies in 0..255 |
| Colour.Bits | ios/Classes/SwiftZendeskPlugin.swift:148-150 | the two's-complement bits that `&` and `>>` act on: 0 is all zeros and -1 all ones |
| Colour.Channels | ios/Classes/SwiftZendeskPlugin.swift:148-150 | the channels of any 64-bit `Int`, negative values included, lie in 0..255 |
| Colour.UiColorFromHex | ios/Classes/SwiftZendeskPlugin.swift:147-154 | red, green and blue lie in [0, 1]; alpha is always 1 |
| Colour.LowBitsDecide | ios/Classes/SwiftZendeskPlugin.swift:148-150 | two bit patterns that agree on bits 0..23 have the same channels |
| Colour.HighBitsIgnored | ios/Classes/SwiftZendeskPlugin.swift:147-154 | bits 24 and above of the integer never affect the channels or the colour |
| Colour.PackedChannels | ios/Classes/SwiftZendeskPlugin.swift:148-150 | extracting the channels of the packed value 0xRRGGBB gives back `r`, `g` and `b` |
| Colour.Examples | ios/Classes/SwiftZendeskPlugin.swift:147-153 | 0x000000 is black and 0xFFFFFF white (alpha 1); 0x1FFFFFF equals 0xFFFFFF; 0x123456 splits as 0x12, 0x34, 0x56; -1 is white; the largest and smallest `Int` and a negative value have the expected two's-complement bits |
| Session.InitChatConfig | ios/Classes/SwiftZendeskPlugin.swift:160-164 | afterwards a record exists, and an existing record is kept as it was |
| Session.Credentials | ios/Classes/SwiftZendeskPlugin.swift:50-52 | the guard of `initialize` passes exactly when both `accountKey` and `appId` are strings |
| Session.Initialize | ios/Classes/SwiftZendeskPlugin.swift:49-56 | with bad credentials nothing changes; with good ones the SDK instance and a record exist afterwards; an existing record is kept |
| Session.VisitorArgs | ios/Classes/SwiftZendeskPlugin.swift:59-62 | the guard of `setVisitorInfo` passes exactly when `name`, `email` and `phoneNumber` are all strings; the visitor then carries those three values |
| Session.Department | ios/Classes/SwiftZendeskPlugin.swift:63 | the department is the string under `department`, or "" when it is missing or not a string |
| Session.SetVisitorInfo | ios/Classes/SwiftZendeskPlugin.swift:58-67 | a failed guard changes nothing; it crashes exactly when past the guard the SDK instance exists and the record does not; the SDK instance and whether a record exists are unchanged; the tags are unchanged |
| Session.AddTags | ios/Classes/SwiftZendeskPlugin.swift:69-73 | crashes exactly when the SDK instance exists and the record does not; with neither it changes nothing; otherwise the old tags are a prefix of the new ones |
| Session.RemoveTags | ios/Classes/SwiftZendeskPlugin.swift:75-79 | crashes exactly when the SDK instance exists and the record does not; with neither it changes nothing; otherwise no supplied tag is left |
| Session.Apply | ios/Classes/SwiftZendeskPlugin.swift:25-43 | `initialize` and `startChat` never crash, `startChat` changes nothing, and a crash needs the SDK instance without the record |
| Session.Handle | ios/Classes/SwiftZendeskPlugin.swift:19-47 | a crash changes nothing and happens only to an acknowledged command; exactly the other names reply with a string, and they change nothing |
| Session.AcknowledgedReplyTrue | ios/Classes/SwiftZendeskPlugin.swift:25-43 | the five known commands other than `getPlatformVersion` reply `true` unless they crash, whether or not their guards passed |
| Session.StartChatKeepsRecord | ios/Classes/SwiftZendeskPlugin.swift:31-37 | `startChat` with a dictionary leaves the record unchanged and replies `true`, even when building the UI throws |
| Session.PlatformVersionReply | ios/Classes/SwiftZendeskPlugin.swift:23-24 | `getPlatformVersion` needs no dictionary, changes nothing and replies "iOS yo " followed by the system version |
| Session.UnknownCommandEchoes | ios/Classes/SwiftZendeskPlugin.swift:44-45 | any other name changes nothing and replies "iOS " followed by the system version |
| Session.CrashesExactly | ios/Classes/SwiftZendeskPlugin.swift:19-79 | a call crashes if and only if one of these holds: an acknowledged command has no dictionary; or the SDK instance exists, there is no record, and the call is `addTags`, `removeTags`, or `setVisitorInfo` past its guard |
| Session.ConsistentNeverCrashesWithDictionary | ios/Classes/SwiftZendeskPlugin.swift:19-79 | in a state the plugin can reach (SDK instance exactly when a record exists) a call with a dictionary never crashes, and the state stays reachable |
| Session.RecordCommandsBeforeInitialize | ios/Classes/SwiftZendeskPlugin.swift:58-79 | `setVisitorInfo`, `addTags` and `removeTags` sent to a new plugin change nothing and reply `true` |
| Session.InitializeGuard | ios/Classes/SwiftZendeskPlugin.swift:25-27 | `initialize` with `accountKey` or `appId` missing or not a string changes nothing, yet replies `true` |
| Session.InitializeKeepsRecord | ios/Classes/SwiftZendeskPlugin.swift:49-56 | `initialize` with both credentials leaves the SDK instance and a record: a fresh empty record if there was none, otherwise the same one unchanged |
| Session.SecondInitializeKeeps | ios/Classes/SwiftZendeskPlugin.swift:160-164 | a second `initialize` keeps the tags, department and visitor left by the first |
| Session.SetVisitorInfoGuard | ios/Classes/SwiftZendeskPlugin.swift:58-62 | `setVisitorInfo` missing any visitor field as a string changes nothing and replies `true` |
| Session.SetVisitorInfoSets | ios/Classes/SwiftZendeskPlugin.swift:58-66 | past the guard with a record: the visitor is exactly the supplied one; the department is the supplied string, or "" when absent or not a string; the tags are unchanged |
| Session.AddTagsAppends | ios/Classes/SwiftZendeskPlugin.swift:69-73 | `addTags` leaves the old tags followed by the supplied ones, in order and with duplicates counted, and leaves department and visitor unchanged |
| Session.AddTagsNothingSupplied | ios/Classes/SwiftZendeskPlugin.swift:69-73 | `addTags` with `tags` missing or not a list of strings leaves the record unchanged |
| Session.AddTagsBeforeInitializeIgnored | ios/Classes/SwiftZendeskPlugin.swift:69-73 | `addTags` sent to a new plugin finds no SDK instance, so the unwrap is skipped: the reply is `true` and the run continues from the unchanged state |
| Session.RemoveTagsFilters | ios/Classes/SwiftZendeskPlugin.swift:75-79 | after `removeTags` no listed tag remains; unlisted tags keep every occurrence; department and visitor are unchanged |
| Session.RemoveTagsIdempotent | ios/Classes/SwiftZendeskPlugin.swift:75-79 | two `removeTags` calls with the same dictionary have the same effect and reply as one |
| Session.RunCalls | ios/Classes/SwiftZendeskPlugin.swift:19-47 | calls are handled one at a time; a run sends one reply per call unless it ends in a crash |
| Session.CrashOnlyWithoutDictionary | ios/Classes/SwiftZendeskPlugin.swift:19-79 | a run from a reachable state crashes only at an acknowledged command that carries no dictionary, and ends in a reachable state |
| Session.FromStartCrashOnlyWithoutDictionary | ios/Classes/SwiftZendeskPlugin.swift:19-79 | a run from a new plugin crashes only at an acknowledged command that carries no dictionary |
| Session.RunStep | ios/Classes/SwiftZendeskPlugin.swift:19-47 | a call that replies `true` hands its record to the rest of the run |
| Session.RecordPersists | ios/Classes/SwiftZendeskPlugin.swift:160-164 | once the record exists, no run of calls ever removes it |
| Session.VisitorOnlyBySetVisitorInfo | ios/Classes/SwiftZendeskPlugin.swift:58-67 | a run with no `setVisitorInfo` leaves department and visitor unchanged |
| Session.TagsOnlyByTagCommands | ios/Classes/SwiftZendeskPlugin.swift:69-79 | a run with no `addTags` or `removeTags` leaves the tags unchanged |
| Session.InitStep | ios/Classes/SwiftZendeskPlugin.swift:49-56 | `initialize` with both credentials on no record creates the fresh record |
| Session.AddXYStep | ios/Classes/SwiftZendeskPlugin.swift:69-73 | adding ["x", "y"] to the fresh record gives ["x", "y"] |
| Session.AddYStep | ios/Classes/SwiftZendeskPlugin.swift:69-73 | adding ["y"] to ["x", "y"] gives ["x", "y", "y"] |
| Session.RemoveYStep | ios/Classes/SwiftZendeskPlugin.swift:75-79 | removing ["y"] from ["x", "y", "y"] gives ["x"] |
| Session.TagScenario | ios/Classes/SwiftZendeskPlugin.swift:19-79 | initialise, add ["x", "y"], then add ["y"] gives ["x", "y", "y"] with three `true` replies; then removing ["y"] gives ["x"] |
| StartChat.Request | ios/Classes/SwiftZendeskPlugin.swift:81-87 | the guard passes exactly when the four flags are booleans and `messagingName` is a string; the request carries those values |
| StartChat.ColourArg | ios/Classes/SwiftZendeskPlugin.swift:90-91 | an integer argument is read as the colour `uiColorFromHex` gives; any other value sets no colour |
| StartChat.StylingOf | ios/Classes/SwiftZendeskPlugin.swift:89-127 | a failed guard sets no colour; the primary colour comes from an integer `iosBackButtonTitle` once the UI is built, and otherwise from `primaryColor`; the navigation bar colours come from their own keys |
| StartChat.GuardFailureSetsNothing | ios/Classes/SwiftZendeskPlugin.swift:81-87 | a call that fails the guard (any flag or `messagingName` missing or mistyped) sets no colour |
| StartChat.BackButtonKeyOverridesPrimary | ios/Classes/SwiftZendeskPlugin.swift:89-127 | once the UI is built, an integer `iosBackButtonTitle` replaces `primaryColor` as the theme's primary colour |
| StartChat.BuildFailureKeepsPrimary | ios/Classes/SwiftZendeskPlugin.swift:89-127 | when building the UI throws, the theme colour comes from `primaryColor` |
| Plugin.ChatApiConfiguration.constructor | ios/Classes/SwiftZendeskPlugin.swift:162 | a new record has no department, no visitor and no tags |
| Plugin.SwiftZendeskPlugin.constructor | ios/Classes/SwiftZendeskPlugin.swift:15 | a new plugin sees no SDK instance and holds no record |
| Plugin.SwiftZendeskPlugin.InitChatConfig | ios/Classes/SwiftZendeskPlugin.swift:160-164 | creates a fresh record only when there is none; an existing record stays the same object with the same contents |
| Plugin.SwiftZendeskPlugin.Initialize | ios/Classes/SwiftZendeskPlugin.swift:49-56 | the new state (SDK instance and record) is `Session.Initialize` of the old one; an existing record stays the same object |
| Plugin.SwiftZendeskPlugin.SetVisitorInfo | ios/Classes/SwiftZendeskPlugin.swift:58-67 | the new state, or the crash, is what `Session.SetVisitorInfo` gives; the unwrap fires only when the SDK instance exists and the record does not; a crash changes nothing |
| Plugin.SwiftZendeskPlugin.AddTags | ios/Classes/SwiftZendeskPlugin.swift:69-73 | the in-place append gives the state, or the crash, that `Session.AddTags` gives; it crashes only when the SDK instance exists and the record does not |
| Plugin.SwiftZendeskPlugin.RemoveTags | ios/Classes/SwiftZendeskPlugin.swift:75-79 | the in-place filter gives the state, or the crash, that `Session.RemoveTags` gives; it crashes only when the SDK instance exists and the record does not |
| Plugin.SwiftZendeskPlugin.Handle | ios/Classes/SwiftZendeskPlugin.swift:19-47 | the switch gives the new state and the response that `Session.Handle` gives, so every `Session` lemma about the dispatcher holds of the object; an existing record stays the same object |

## Left out

- `register(with:)` and the channel setup (lines 13-17) are Flutter plumbing. The model starts from the object they create.
- `UIDevice.current.systemVersion` is a parameter of the dispatcher.
- `Chat.initialize(accountKey:appId:)` and every assignment `Chat.instance?.configuration = chatAPIConfig!` are calls into the Chat SDK. The model keeps only whether `Chat.instance` exists. It assumes that `Chat.initialize` creates the instance and that nothing else creates or removes it. The force-unwrap on the right-hand side of those assignments is modelled as the crash. The SDK's own copy of the configuration is not modelled.
- Building the chat UI in `startChat` (`ChatEngine.engine()`, `Messaging.instance.buildUI`, the title, the back button) is SDK and UIKit code. Whether it throws is the parameter `built` of `StartChat.StylingOf`. Logging the thrown error with `os_log` has no visible effect beyond the reply `true`.
- `presentViewController` (pushing onto an existing navigation stack or presenting a new one) and `close` are UIKit navigation. They are not part of this model, and neither is the choice of window.
- Colour.UiColorFromHex: divides by 255 exactly, in rationals. `CGFloat` rounding and the `UIColor` object are not modelled.
- Colour.Bits: defined as two's complement (a negative value is the complement of `-1 - v`). Its contract fixes only 0 and -1, and `Colour.Examples` checks the extreme values. Agreement with `v mod 2^64` for every `v` is not proved, because conversions between `int` and `bv64` over symbolic values exceed the solver's resource limit.
- Values.BoolArg, Values.IntArg: treat booleans and integers as distinct. Foundation's bridging of `NSNumber` is not modelled. Under that bridging, `as? Bool` accepts the integers 0 and 1, and `as? Int` reads a Dart `true` as 1 and an integral double such as 255.0 as 255.
- Tags.Without: compares tags by their Unicode scalar values. Swift's `String ==`, which `tags.contains` uses, treats canonically equivalent strings as equal. For example, "e" followed by a combining acute accent equals "é". The two agree when tags are in one normalization form. So `Tags.WithoutOccurrences` and `Session.RemoveTagsFilters` hold of the program only for such tags.
- Values.StringArg: looks up dictionary keys by their Unicode scalar values. Swift's dictionary lookup also treats canonically equivalent keys as equal. The argument keys the plugin reads are plain ASCII, but a caller's key in another canonically equivalent spelling matches in Swift and not in the model.
- Concurrency: none in the source. Calls are handled one at a time.
