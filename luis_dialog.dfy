/** SampleLuisDialog: a restaurant search that needs two slots, the area and the gourmet
    category. Whatever the classifier does not find in the first message is asked for with a
    text prompt, and the reply fills the missing slot. */
module RestaurantSearch {
  import opened Wrappers
  import opened Messages

  datatype Slot = Area | GourmetCategory

  /** The pending continuation: MessageReceived (classify the next message), or the text prompt
      for one slot (its reply goes to the prompted ReplyRestaurant overload). */
  datatype SearchMode = Idle | AwaitingSlot(slot: Slot)

  /** What the classifier returns for one message: the best-scoring intent (if any), every
      candidate intent name in the classifier's order, and the first `area` and
      `gourmetCategory` entities it found. */
  datatype LuisResult = LuisResult(
    topIntent: Option<string>,
    intents: seq<string>,
    area: Option<string>,
    gourmetCategory: Option<string>)

  class SampleLuisDialog {
    var area: Option<string>
    var gourmetCategory: Option<string>
    var mode: SearchMode

    /** Both slots are empty whenever the dialog is idle; while a prompt is out, exactly the
        slot being asked for is empty. */
    ghost predicate Valid()
      reads this
    {
      match mode
      case Idle => area == None && gourmetCategory == None
      case AwaitingSlot(Area) => area == None && gourmetCategory.Some?
      case AwaitingSlot(GourmetCategory) => area.Some? && gourmetCategory == None
    }

    /** Where a `getRestaurant` turn from the idle state ends, by the entities found; read
        after the turn, with `out` the messages it posted. */
    ghost predicate IdleOutcome(result: LuisResult, out: seq<string>)
      reads this
    {
      match (result.area, result.gourmetCategory)
      case (None, None) => mode == Idle && out == [NotEnoughInfo]
      case (None, Some(c)) => mode == AwaitingSlot(Area) && gourmetCategory == Some(c) && out == [AskArea]
      case (Some(a), None) => mode == AwaitingSlot(GourmetCategory) && area == Some(a) && out == [AskCategory]
      case (Some(a), Some(c)) => mode == Idle && out == [RestaurantReply(a, c)]
    }

    constructor ()
      ensures Valid() && mode == Idle
    {
      area := None;
      gourmetCategory := None;
      mode := Idle;
    }

    /** The handler for the empty intent name, which takes every intent with no handler of its
        own: it lists the candidate intents and leaves the slots alone. */
    method NoneIntent(result: LuisResult) returns (out: seq<string>)
      requires Valid() && mode == Idle
      modifies this
      ensures Valid()
      ensures mode == Idle && area == old(area) && gourmetCategory == old(gourmetCategory)
      ensures out == [NotUnderstood(result.intents)]
    {
      out := [NotUnderstood(result.intents)];
      mode := Idle;
    }

    /** The `getRestaurant` handler: four branches on which of the two entities were found. */
    method GetRestaurant(result: LuisResult) returns (out: seq<string>)
      requires Valid() && mode == Idle
      modifies this
      ensures Valid()
      ensures result.area.None? && result.gourmetCategory.None? ==>
        mode == Idle && area == old(area) && gourmetCategory == old(gourmetCategory) &&
        out == [NotEnoughInfo]
      ensures result.area.None? && result.gourmetCategory.Some? ==>
        mode == AwaitingSlot(Area) && area == old(area) &&
        gourmetCategory == result.gourmetCategory && out == [AskArea]
      ensures result.area.Some? && result.gourmetCategory.None? ==>
        mode == AwaitingSlot(GourmetCategory) && gourmetCategory == old(gourmetCategory) &&
        area == result.area && out == [AskCategory]
      ensures result.area.Some? && result.gourmetCategory.Some? ==>
        mode == Idle && area == None && gourmetCategory == None &&
        out == [RestaurantReply(result.area.value, result.gourmetCategory.value)]
    {
      if result.area.None? && result.gourmetCategory.None? {
        out := [NotEnoughInfo];
        mode := Idle;
      } else if result.area.None? {
        gourmetCategory := result.gourmetCategory;
        out := [AskArea];
        mode := AwaitingSlot(Area);
      } else if result.gourmetCategory.None? {
        area := result.area;
        out := [AskCategory];
        mode := AwaitingSlot(GourmetCategory);
      } else {
        area := result.area;
        gourmetCategory := result.gourmetCategory;
        out := ReplyRestaurant();
      }
    }

    /** The overload without an argument: answer from the two slots (a null slot prints as
        nothing), then clear both and wait for the next message. */
    method ReplyRestaurant() returns (out: seq<string>)
      modifies this
      ensures Valid()
      ensures mode == Idle && area == None && gourmetCategory == None
      ensures out == [RestaurantReply(Show(old(area)), Show(old(gourmetCategory)))]
    {
      out := [RestaurantReply(Show(area), Show(gourmetCategory))];
      area := None;
      gourmetCategory := None;
      mode := Idle;
    }

    /** The overload the text prompt resumes: each slot is its stored value or, when empty,
        the reply (`??`). By the invariant the reply lands in exactly the slot that was asked for. */
    method ReplyRestaurantWith(reply: string) returns (out: seq<string>)
      requires Valid() && mode.AwaitingSlot?
      modifies this
      ensures Valid()
      ensures mode == Idle && area == None && gourmetCategory == None
      ensures out == [RestaurantReply(Coalesce(old(area), reply), Coalesce(old(gourmetCategory), reply))]
      ensures old(mode) == AwaitingSlot(Area) ==>
        out == [RestaurantReply(reply, old(gourmetCategory).value)]
      ensures old(mode) == AwaitingSlot(GourmetCategory) ==>
        out == [RestaurantReply(old(area).value, reply)]
    {
      var a := Coalesce(area, reply);
      var c := Coalesce(gourmetCategory, reply);
      out := [RestaurantReply(a, c)];
      area := None;
      gourmetCategory := None;
      mode := Idle;
    }

    /** An idle turn: the message's best intent picks the handler. `getRestaurant` has its own;
        every other intent, and a result with no intent at all, goes to the empty-name handler. */
    method MessageReceived(result: LuisResult) returns (out: seq<string>)
      requires Valid() && mode == Idle
      modifies this
      ensures Valid()
      ensures result.topIntent != Some(GetRestaurantIntent) ==>
        mode == Idle && out == [NotUnderstood(result.intents)]
      ensures result.topIntent == Some(GetRestaurantIntent) ==>
        IdleOutcome(result, out)
    {
      if result.topIntent == Some(GetRestaurantIntent) {
        out := GetRestaurant(result);
      } else {
        out := NoneIntent(result);
      }
    }

    /** One inbound message `text`, delivered to the pending continuation. `result` is what the
        classifier returns for `text`; it is consulted only when the dialog is idle, since a
        prompt takes the reply literally. */
    method Step(text: string, result: LuisResult) returns (out: seq<string>)
      requires Valid()
      modifies this
      ensures Valid() && |out| == 1
      ensures old(mode) == AwaitingSlot(Area) ==>
        mode == Idle && out == [RestaurantReply(text, old(gourmetCategory).value)]
      ensures old(mode) == AwaitingSlot(GourmetCategory) ==>
        mode == Idle && out == [RestaurantReply(old(area).value, text)]
      ensures old(mode) == Idle && result.topIntent != Some(GetRestaurantIntent) ==>
        mode == Idle && out == [NotUnderstood(result.intents)]
      ensures old(mode) == Idle && result.topIntent == Some(GetRestaurantIntent) ==>
        IdleOutcome(result, out)
    {
      match mode
      case Idle =>
        out := MessageReceived(result);
      case AwaitingSlot(_) =>
        out := ReplyRestaurantWith(text);
    }
  }
}
