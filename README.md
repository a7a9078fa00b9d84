# Dialog state machines of the bot-fw-csharp sample bot

The sample bot's `MessagesController` holds two per-conversation dialogs, and this project models both:

- **EchoDialog** echoes every message as `'{text}'と{n}回言いました`. `n` is a running count: the printed value is the count before the message, and the count starts at 1. The text `リセット` instead puts a yes/no confirmation prompt out. A yes sets `resetCount` to 1 and reports `1回目のリセットを実行しました`. A no reports `リセットを中止しました`.
- **SampleLuisDialog** is the dialog the HTTP endpoint actually runs. It does a restaurant search that needs two slots: an area and a gourmet category. An idle message is classified. The best intent `getRestaurant` goes to `GetRestaurant`, and every other intent goes to the fallback handler, which lists the candidate intents. `GetRestaurant` answers at once when both entities were found, says there is not enough information when neither was, and otherwise asks for the missing one with a text prompt. The literal reply to that prompt fills the empty slot (`??`). The answer `{area}の{category}を探しますね` then clears both slots.

Each dialog is a class. Its fields are the source's fields, and its `mode` field records the pending continuation (which handler the next message goes to, registered in the source by `context.Wait` or a `PromptDialog` call). Each handler is a method whose `ensures` gives the whole new state and the list of messages the turn posts. `Step` delivers one inbound message to whichever handler is pending. Each class has a `Valid()` invariant that every method keeps:
- EchoDialog: `resetCount` is always 1.
- SampleLuisDialog: both slots are empty whenever the dialog is idle, and while a prompt is out exactly the slot being asked for is empty.

The `Conversations` module drives fresh dialogs through several turns. It proves the sample's multi-turn behaviour from the class contracts alone.

The message texts are functions in `Messages`. The two formatting steps they need each have an inverse and a round-trip lemma:
- the decimal rendering of an `int` (`Format.IntToString`, undone by `Format.ParseInt`);
- `string.Join(", ", …)` (`Format.Join`, undone by `Format.Split`).

External collaborators become inputs:
- The language-understanding service's answer for a message is a `LuisResult` parameter: the best intent, the candidate intent names in order, and the area and category entities, each optional.
- The yes/no reading of a reply to the confirmation prompt is a `bool` parameter.
- The reply to a text prompt is the message text itself.

The dialog counters are C# `int`s, so they are modelled as a 32-bit `int32` newtype. The increment wraps from `int.MaxValue` to `int.MinValue`, as C# does in its default unchecked context.

A confirmed reset assigns 1 to `resetCount` (MessagesController.cs:72), the only write to that field. The echo counter `otherCount` runs on across a reset: `Conversations.EchoAcrossConfirmedReset` shows its third echo still says 3.

## Model

| member | source | states |
|---|---|---|
| Int32.Increment | bot-fw-csharp/Controllers/MessagesController.cs:62 | `otherCount++` on a C# `int`: the result is congruent to x + 1 modulo 2^32, and equals x + 1 below `int.MaxValue` |
| Int32.IncrementUnique | bot-fw-csharp/Controllers/MessagesController.cs:62 | the two's-complement rule determines the increment: no other 32-bit value is x + 1 modulo 2^32 |
| Format.NatRoundTrip | bot-fw-csharp/Controllers/MessagesController.cs:62 | reading the printed digits of a count back gives the count |
| Format.DigitsRoundTrip | bot-fw-csharp/Controllers/MessagesController.cs:62 | every canonical digit string (no leading zero) is the rendering of its own value, so rendering is onto the canonical strings |
| Format.IntRoundTrip | bot-fw-csharp/Controllers/MessagesController.cs:73 | every `int` the dialogs interpolate, negative ones included, prints as text that ParseInt reads back to the same value |
| Format.ParseIntExact | bot-fw-csharp/Controllers/MessagesController.cs:73 | every string ParseInt accepts is exactly what IntToString prints for the value it reads |
| Format.IntToStringInjective | bot-fw-csharp/Controllers/MessagesController.cs:62 | different counts never print the same |
| Format.SplitJoin | bot-fw-csharp/Controllers/MessagesController.cs:96 | a non-empty list of names without commas comes back unchanged from splitting its `", "`-join |
| Format.IntToString | bot-fw-csharp/Controllers/MessagesController.cs:62 | renders `{n}` for an `int`: its decimal digits, most significant first, after a '-' when negative (round trip in Format.IntRoundTrip) |
| Format.Join | bot-fw-csharp/Controllers/MessagesController.cs:96 | renders `string.Join(", ", names)`: the names in order with ", " between consecutive ones, "" for no names (inverse in Format.SplitJoin) |
| Messages.EchoReply | bot-fw-csharp/Controllers/MessagesController.cs:62 | renders `'{text}'と{n}回言いました` with the count printed by IntToString |
| Messages.ResetDone | bot-fw-csharp/Controllers/MessagesController.cs:73 | renders `{resetCount}回目のリセットを実行しました` |
| Messages.NotUnderstood | bot-fw-csharp/Controllers/MessagesController.cs:96 | renders `わかりません: ` followed by the intent names joined with ", " |
| Messages.RestaurantReply | bot-fw-csharp/Controllers/MessagesController.cs:134 | renders `{area}の{category}を探しますね`, the answer of both ReplyRestaurant overloads (also line 145) |
| Messages.Show | bot-fw-csharp/Controllers/MessagesController.cs:134 | renders a string field that may be null as C# interpolation does: its value, or "" for null |
| Messages.EchoReplyCount | bot-fw-csharp/Controllers/MessagesController.cs:62 | an echo reply starts with the quoted text, and the count printed in it reads back as the count |
| Messages.EchoReplyDistinct | bot-fw-csharp/Controllers/MessagesController.cs:62 | echoes of the same text with different counts are different messages |
| Messages.NotUnderstoodListsIntents | bot-fw-csharp/Controllers/MessagesController.cs:96 | the fallback is `わかりません: ` followed by the candidate intent names, which split back out in classifier order |
| Echo.EchoDialog.constructor | bot-fw-csharp/Controllers/MessagesController.cs:40-46 | both counters start at 1, and the dialog waits for a message |
| Echo.EchoDialog.MessageReceived | bot-fw-csharp/Controllers/MessagesController.cs:48-65 | the reset trigger posts the confirmation prompt, moves to AwaitingConfirm and leaves both counters alone. Any other text posts the echo with the count before the step; the echo count then goes up by one with wrap-around, and `resetCount` and the idle mode are unchanged |
| Echo.EchoDialog.AfterReset | bot-fw-csharp/Controllers/MessagesController.cs:67-80 | yes sets `resetCount` to 1 and posts `1回目のリセットを実行しました`. No posts `リセットを中止しました` and leaves `resetCount` alone. Both return to idle with `otherCount` unchanged |
| Echo.EchoDialog.Step | bot-fw-csharp/Controllers/MessagesController.cs:45-79 | a message goes to the pending handler with that handler's effect; every turn posts exactly one message and keeps `resetCount` at 1 |
| RestaurantSearch.SampleLuisDialog.constructor | bot-fw-csharp/Controllers/MessagesController.cs:90-91 | both slots start null and the dialog is idle, so the invariant holds |
| RestaurantSearch.SampleLuisDialog.NoneIntent | bot-fw-csharp/Controllers/MessagesController.cs:93-99 | posts `わかりません: ` with the candidate intents joined by `", "`, and leaves the slots and the idle mode alone |
| RestaurantSearch.SampleLuisDialog.GetRestaurant | bot-fw-csharp/Controllers/MessagesController.cs:103-130 | neither entity: posts `ごめんなさい、情報が足りません` with nothing changed. Category only: stores it and prompts for the area. Area only: stores it and prompts for the category. Both: answers `{area}の{category}を探しますね` in the same turn and ends idle with both slots null |
| RestaurantSearch.SampleLuisDialog.ReplyRestaurant | bot-fw-csharp/Controllers/MessagesController.cs:132-139 | answers from the two slots (a null one prints as empty), then clears both slots and goes idle |
| RestaurantSearch.SampleLuisDialog.ReplyRestaurantWith | bot-fw-csharp/Controllers/MessagesController.cs:141-150 | each slot becomes its stored value `??` the reply (lines 143-144), so the reply fills exactly the slot that was prompted for. The answer combines it with the stored slot, and both slots are null and the dialog idle afterwards |
| RestaurantSearch.SampleLuisDialog.MessageReceived | bot-fw-csharp/Controllers/MessagesController.cs:93-102 | best intent `getRestaurant` behaves as GetRestaurant; any other intent, or none, gets the fallback and stays idle |
| RestaurantSearch.SampleLuisDialog.Step | bot-fw-csharp/Controllers/MessagesController.cs:112-149 | an idle message is classified and dispatched. A message while a prompt is out is taken literally as the missing slot and answered. Every turn posts one message and keeps slots-null-when-idle |
| Conversations.EchoAcrossConfirmedReset | bot-fw-csharp/Controllers/MessagesController.cs:60-79 | echo, echo, trigger, yes, echo posts counts 1 and 2, the prompt, `1回目のリセットを実行しました`, then count 3: the reset does not restart the echo count |
| Conversations.EchoAcrossCancelledReset | bot-fw-csharp/Controllers/MessagesController.cs:51-79 | a refused reset posts the cancellation, and the echo count carries on from where it was |
| Conversations.PromptTakesNextReply | bot-fw-csharp/Controllers/MessagesController.cs:53-79 | while the confirmation is out, the next message (a yes or a no) goes to AfterReset, not MessageReceived: no echo and no second prompt, only the reset or cancellation report |
| Conversations.FirstEcho | bot-fw-csharp/Controllers/MessagesController.cs:41-62 | the first message of a conversation is echoed with count 1 |
| Conversations.IndependentConversations | bot-fw-csharp/Controllers/MessagesController.cs:40-62 | two dialogs keep separate counters |
| Conversations.CategoryThenArea | bot-fw-csharp/Controllers/MessagesController.cs:114-150 | category only, then any reply: the area prompt, then an answer naming the reply as area with the stored category; both slots null and idle afterwards |
| Conversations.AreaThenCategory | bot-fw-csharp/Controllers/MessagesController.cs:119-150 | area only, then any reply: the category prompt, then an answer with the stored area and the reply as category; both slots null and idle afterwards |
| Conversations.BothAtOnce | bot-fw-csharp/Controllers/MessagesController.cs:124-139 | both entities give the answer in the same turn; the next message is classified afresh |
| Conversations.FallbackThenSearch | bot-fw-csharp/Controllers/MessagesController.cs:93-150 | the fallback ignores the entities of a non-`getRestaurant` message, so a later search starts from empty slots |
| Conversations.ConcreteFallback | bot-fw-csharp/Controllers/MessagesController.cs:96 | candidates `None`, `getRestaurant` give `わかりません: None, getRestaurant` |

## Left out

- The HTTP entry point `Post`, `[BotAuthentication]` and the constant `Accepted` reply (MessagesController.cs:17-35) are transport, and are not modelled.
- `HandleSystemMessage` (MessagesController.cs:155-182) has only empty branches and returns null, so there is no behaviour to model. Its dereference of a null activity is a transport concern.
- The language-understanding call, the `[LuisModel]`/`[LuisIntent]` dispatch machinery and `TryFindEntity` are SDK and remote-service behaviour. Their outcome is the `LuisResult` input. Routing is modelled only as far as these two handlers need: `getRestaurant` goes to its own handler, and everything else goes to the handler for the empty intent name.
- `PromptDialog` internals are SDK code that is not part of this model. This covers the yes/no parsing of `Confirm`, the retry texts (`「はい」または「いいえ」でお答えください`, `都道府県の名前で教えてください`, `「イタリアン」などの名前で教えてください`) and the 3-attempt bound of `Text` with its behaviour on exhaustion. A prompt is modelled as posting its first text; its answer is a `bool` for Confirm and the reply text for Text.
- `async`/`await`, `Conversation.SendAsync`, `[Serializable]` state persistence and per-conversation serialisation belong to the host framework and are not modelled. Each dialog object is one conversation's state, and methods run one at a time.
- Echo.EchoDialog.AfterReset: a reply to the confirmation prompt that is neither yes nor no is re-asked in the source with `「はい」または「いいえ」でお答えください` (MessagesController.cs:57) and the dialog keeps waiting; the model takes every reply as a `bool`, so it does not capture that re-asking turn.
- A failing classifier call (does not return) is not modelled. On that path the dialog state is left unchanged.
- The unused constant `DefaultAlarmWhat` (MessagesController.cs:87) is not modelled.
- Format.IntToString: renders a negative count with '-', as the invariant culture does; a culture with another negative sign is not modelled.
- Messages.NotUnderstood: `result.Intents` is taken to be a list, never null.
