/** Whole conversations, driven through the dialogs' contracts alone: what a user sees over
    several turns of a fresh conversation. */
module Conversations {
  import opened Wrappers
  import opened Int32
  import opened Format
  import opened Messages
  import opened Echo
  import opened RestaurantSearch

  /** Two echoes, a confirmed reset and one more echo. The reset does not restart the echo
      count: the third echo still says 3. */
  method EchoAcrossConfirmedReset(text: string) returns (out: seq<string>)
    requires text != ResetTrigger
    ensures out == [EchoReply(text, 1), EchoReply(text, 2), ConfirmResetPrompt,
                    "1回目のリセットを実行しました", EchoReply(text, 3)]
  {
    var d := new EchoDialog();
    var m1 := d.Step(text, false);
    var m2 := d.Step(text, false);
    var m3 := d.Step(ResetTrigger, false);
    var m4 := d.Step(text, true);
    var m5 := d.Step(text, false);
    out := m1 + m2 + m3 + m4 + m5;
    assert IntToString(1) == "1";
    assert ResetDone(1) == "1" + "回目のリセットを実行しました";
    assert "1" + "回目のリセットを実行しました" == "1回目のリセットを実行しました";
  }

  /** A refused reset: the cancellation message, and the count carries on. */
  method EchoAcrossCancelledReset(text: string) returns (out: seq<string>)
    requires text != ResetTrigger
    ensures out == [EchoReply(text, 1), ConfirmResetPrompt, "リセットを中止しました", EchoReply(text, 2)]
  {
    var d := new EchoDialog();
    var m1 := d.Step(text, false);
    var m2 := d.Step(ResetTrigger, true);
    var m3 := d.Step(text, false);
    var m4 := d.Step(text, false);
    out := m1 + m2 + m3 + m4;
  }

  /** While the confirmation prompt is out, the next message is the answer to it and goes to
      AfterReset: it is neither echoed nor taken as a new reset request, and the message after it
      is echoed again from the count before the reset. */
  method PromptTakesNextReply(reply: string, answer: bool) returns (out: seq<string>)
    requires reply != ResetTrigger
    ensures out == [ConfirmResetPrompt, if answer then ResetDone(1) else ResetCancelled,
                    EchoReply(reply, 1)]
  {
    var d := new EchoDialog();
    var m1 := d.Step(ResetTrigger, false);
    var m2 := d.Step(reply, answer);
    var m3 := d.Step(reply, false);
    out := m1 + m2 + m3;
  }

  /** A concrete echo: the first message is counted as 1. */
  method FirstEcho() returns (out: seq<string>)
    ensures out == ["'こんにちは'と1回言いました"]
  {
    var d := new EchoDialog();
    out := d.Step("こんにちは", false);
    assert IntToString(1) == "1";
    assert EchoReply("こんにちは", 1) == "'" + "こんにちは" + "'と" + "1" + "回言いました";
    assert "'" + "こんにちは" + "'と" + "1" + "回言いました" == "'こんにちは'と1回言いました";
  }

  /** Two conversations do not share counters: the second echo of one and the first of the
      other carry different counts. */
  method IndependentConversations(text: string) returns (first: seq<string>, second: seq<string>)
    requires text != ResetTrigger
    ensures first == [EchoReply(text, 1), EchoReply(text, 2)]
    ensures second == [EchoReply(text, 1)]
    ensures first[1] != second[0]
  {
    var a := new EchoDialog();
    var b := new EchoDialog();
    var a1 := a.Step(text, false);
    var b1 := b.Step(text, false);
    var a2 := a.Step(text, false);
    first, second := a1 + a2, b1;
    EchoReplyDistinct(text, 2, 1);
  }

  function Classified(area: Option<string>, category: Option<string>): LuisResult
  {
    LuisResult(Some(GetRestaurantIntent), [GetRestaurantIntent], area, category)
  }

  /** Only the category is found: the dialog asks for the area, and the literal reply becomes it.
      The dialog is idle with both slots empty afterwards. */
  method CategoryThenArea(category: string, reply: string, ignored: LuisResult)
    returns (out: seq<string>, d: SampleLuisDialog)
    ensures out == [AskArea, RestaurantReply(reply, category)]
    ensures d.mode == SearchMode.Idle && d.area == None && d.gourmetCategory == None
  {
    d := new SampleLuisDialog();
    var m1 := d.Step("", Classified(None, Some(category)));
    var m2 := d.Step(reply, ignored);
    out := m1 + m2;
  }

  /** Only the area is found: the dialog asks for the category, and the reply becomes it. */
  method AreaThenCategory(area: string, reply: string, ignored: LuisResult)
    returns (out: seq<string>, d: SampleLuisDialog)
    ensures out == [AskCategory, RestaurantReply(area, reply)]
    ensures d.mode == SearchMode.Idle && d.area == None && d.gourmetCategory == None
  {
    d := new SampleLuisDialog();
    var m1 := d.Step("", Classified(Some(area), None));
    var m2 := d.Step(reply, ignored);
    out := m1 + m2;
  }

  /** Both entities in one message: the answer comes in the same turn, and the next message is
      classified afresh (here as not enough information). */
  method BothAtOnce(area: string, category: string) returns (out: seq<string>)
    ensures out == [RestaurantReply(area, category), "ごめんなさい、情報が足りません"]
  {
    var d := new SampleLuisDialog();
    var m1 := d.Step("", Classified(Some(area), Some(category)));
    var m2 := d.Step("", Classified(None, None));
    out := m1 + m2;
  }

  /** An unknown intent gets the fallback, and a restaurant search after it starts from empty
      slots. */
  method FallbackThenSearch(intents: seq<string>, category: string, reply: string)
    returns (out: seq<string>)
    ensures out == [NotUnderstood(intents), AskArea, RestaurantReply(reply, category)]
  {
    var d := new SampleLuisDialog();
    var m1 := d.Step("", LuisResult(None, intents, Some("x"), Some("y")));
    var m2 := d.Step("", Classified(None, Some(category)));
    var m3 := d.Step(reply, Classified(None, None));
    out := m1 + m2 + m3;
  }

  /** A concrete fallback with two candidate intents. */
  method ConcreteFallback() returns (out: seq<string>)
    ensures out == ["わかりません: None, getRestaurant"]
  {
    var d := new SampleLuisDialog();
    out := d.Step("", LuisResult(Some("None"), ["None", "getRestaurant"], None, None));
    assert Join(["None", "getRestaurant"]) == "None" + ", " + "getRestaurant";
    assert NotUnderstood(["None", "getRestaurant"]) == "わかりません: " + "None" + ", " + "getRestaurant";
    assert "わかりません: " + "None" + ", " + "getRestaurant" == "わかりません: None, getRestaurant";
  }
}
