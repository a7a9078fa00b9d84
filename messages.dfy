/** The fixed texts and message templates of the two dialogs. */
module Messages {
  import opened Int32
  import opened Format
  import opened Wrappers

  // EchoDialog
  const ResetTrigger: string := "リセット"
  const ConfirmResetPrompt: string := "本当にリセットしてよろしいですか?"
  const ResetCancelled: string := "リセットを中止しました"

  /** `'{text}'と{n}回言いました` */
  function EchoReply(text: string, n: int32): string
  {
    "'" + text + "'と" + IntToString(n as int) + "回言いました"
  }

  /** `{n}回目のリセットを実行しました` */
  function ResetDone(n: int32): string
  {
    IntToString(n as int) + "回目のリセットを実行しました"
  }

  // SampleLuisDialog
  const GetRestaurantIntent: string := "getRestaurant"
  const NotUnderstoodPrefix: string := "わかりません: "
  const NotEnoughInfo: string := "ごめんなさい、情報が足りません"
  const AskArea: string := "探したい都道府県を教えてください"
  const AskCategory: string := "探したいレストランのジャンルを教えてください"

  /** The fallback: the prefix, then the candidate intent names joined with ", ". */
  function NotUnderstood(intents: seq<string>): string
  {
    NotUnderstoodPrefix + Join(intents)
  }

  /** `{area}の{category}を探しますね` */
  function RestaurantReply(area: string, category: string): string
  {
    area + "の" + category + "を探しますね"
  }

  /** What C# interpolation prints for a string field that may be null: the empty string for null. */
  function Show(s: Option<string>): string
  {
    Coalesce(s, "")
  }

  /** The count in an echo reply can be read back from the reply: the digits between the last
      'と' and the fixed ending are exactly the rendering of the count. */
  lemma EchoReplyCount(text: string, n: int32)
    ensures var m := EchoReply(text, n);
      var d := IntToString(n as int);
      |m| == |text| + |d| + 9 &&
      m[..|text| + 3] == "'" + text + "'と" &&
      ParseInt(m[|text| + 3..|m| - 6]) == Some(n as int)
  {
    var m := EchoReply(text, n);
    var d := IntToString(n as int);
    assert m == ("'" + text + "'と") + d + "回言いました";
    assert m[|text| + 3..|m| - 6] == d;
    IntRoundTrip(n as int);
  }

  /** Echo replies for the same text but different counts differ. */
  lemma EchoReplyDistinct(text: string, m: int32, n: int32)
    requires m != n
    ensures EchoReply(text, m) != EchoReply(text, n)
  {
    EchoReplyCount(text, m);
    EchoReplyCount(text, n);
  }

  /** The fallback names every candidate intent, in classifier order, when none contains a comma. */
  lemma NotUnderstoodListsIntents(intents: seq<string>)
    requires |intents| > 0
    requires forall k :: 0 <= k < |intents| ==> NoComma(intents[k])
    ensures var m := NotUnderstood(intents);
      m[..|NotUnderstoodPrefix|] == NotUnderstoodPrefix &&
      Split(m[|NotUnderstoodPrefix|..]) == intents
  {
    var m := NotUnderstood(intents);
    assert m[|NotUnderstoodPrefix|..] == Join(intents);
    SplitJoin(intents);
  }
}
