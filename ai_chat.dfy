/**
 * The chat assistant: a canned responder that picks a reply by keyword, in a
 * fixed priority order, and the chat session that appends the user's messages
 * and the assistant's replies.
 */
module AIChat {
  import opened Wrappers
  import opened Text

  // ---------------------------------------------------------------------------
  // The fixed texts

  const WelcomeText: string :=
    "您好！我是您的饮食健康助手。您可以：\n"
    + "\n"
    + "• 拍照识别食物\n"
    + "• 咨询饮食建议\n"
    + "• 了解营养知识\n"
    + "• 获取食谱推荐\n"
    + "\n"
    + "请问有什么可以帮您的吗？"

  const ImageReply: string :=
    "我看到您分享了一张食物照片。这看起来像是健康的一餐！\n"
    + "\n"
    + "根据图片，我建议：\n"
    + "• 注意食物的分量控制\n"
    + "• 搭配适量蔬菜\n"
    + "• 注意烹饪方式，建议少油少盐\n"
    + "\n"
    + "如果您想了解具体的营养成分，可以在\"饮食记录\"中手动添加详细信息。"

  const WeightLossReply: string :=
    "关于健康减脂，我建议：\n"
    + "\n"
    + "1. 控制热量摄入，每日减少300-500kcal\n"
    + "2. 保持蛋白质摄入，每公斤体重1.6-2g\n"
    + "3. 选择低GI碳水，如糙米、燕麦\n"
    + "4. 增加蔬菜摄入量，每餐至少一半是蔬菜\n"
    + "5. 配合适量运动，每周3-5次\n"
    + "\n"
    + "建议查看\"食谱推荐\"中的减脂餐选项！"

  const BreakfastReply: string :=
    "健康早餐建议：\n"
    + "\n"
    + "碳水：全麦面包、燕麦、杂粮粥\n"
    + "蛋白质：鸡蛋、牛奶、豆浆\n"
    + "维生素：水果、蔬菜\n"
    + "\n"
    + "推荐搭配：\n"
    + "• 燕麦 + 鸡蛋 + 香蕉\n"
    + "• 全麦面包 + 牛奶 + 水果\n"
    + "• 杂粮粥 + 鸡蛋 + 青菜\n"
    + "\n"
    + "早餐应占全天热量的25-30%哦！"

  const ProteinReply: string :=
    "优质蛋白质来源：\n"
    + "\n"
    + "动物性蛋白：\n"
    + "• 鸡胸肉、瘦牛肉（蛋白质含量高）\n"
    + "• 鱼类（富含Omega-3）\n"
    + "• 鸡蛋（完全蛋白）\n"
    + "\n"
    + "植物性蛋白：\n"
    + "• 豆腐、豆浆\n"
    + "• 藜麦\n"
    + "• 坚果类\n"
    + "\n"
    + "成年人每日推荐摄入量：每公斤体重0.8-1g"

  const WaterReply: string :=
    "每日饮水建议：\n"
    + "\n"
    + "成年人每日推荐饮水量：1500-2000ml\n"
    + "\n"
    + "最佳饮水时间：\n"
    + "• 早晨起床后 250ml\n"
    + "• 三餐前30分钟 200ml\n"
    + "• 运动后及时补充\n"
    + "• 睡前1小时 少量\n"
    + "\n"
    + "注意：\n"
    + "避免一次性大量饮水，少量多次为宜。"

  const Fallback0: string :=
    "这是个很好的问题！"
    + "根据营养学原理，建议您保持饮食多样化，每天摄入12种以上食物。"

  const Fallback1: string :=
    "我理解您的关注。"
    + "建议您在\"营养分析\"标签查看您的营养摄入情况，我会根据数据给出更精准的建议。"

  const Fallback2: string :=
    "关于这个问题，建议您咨询专业营养师获取个性化方案。"
    + "我可以为您提供一般性的营养建议作为参考。"

  const Fallback3: string :=
    "您可以在\"食谱推荐\"中找到适合的健康食谱，都是经过营养配比的哦！"

  /** The four generic replies, one of which is picked at random. */
  const Fallbacks: seq<string> := [Fallback0, Fallback1, Fallback2, Fallback3]

  /** The text of the user message an image upload adds. */
  const PhotoText: string := "我拍了张食物照片"

  // ---------------------------------------------------------------------------
  // The responder

  /** The keyword topics, each with its own canned advice. */
  datatype Topic = WeightLoss | Breakfast | Protein | Water

  /** The two keywords that select a topic (looked up in the lower-cased message). */
  function Keywords(t: Topic): (r: seq<string>)
    ensures |r| == 2
  {
    match t
    case WeightLoss => ["减肥", "减脂"]
    case Breakfast => ["早餐", "breakfast"]
    case Protein => ["蛋白质", "protein"]
    case Water => ["水", "喝"]
  }

  /** The position of a topic in the order the keyword tests run. */
  function Rank(t: Topic): nat
  {
    match t
    case WeightLoss => 0
    case Breakfast => 1
    case Protein => 2
    case Water => 3
  }

  predicate Mentions(lower: string, t: Topic)
  {
    Contains(lower, Keywords(t)[0]) || Contains(lower, Keywords(t)[1])
  }

  function TopicReply(t: Topic): string
  {
    match t
    case WeightLoss => WeightLossReply
    case Breakfast => BreakfastReply
    case Protein => ProteinReply
    case Water => WaterReply
  }

  /** The first topic, in test order, whose keywords occur in `lower`. */
  function FirstTopic(lower: string): (r: Option<Topic>)
    ensures r.None? <==> forall t :: !Mentions(lower, t)
    ensures r.Some? ==> Mentions(lower, r.value)
    ensures r.Some? ==> forall t :: Rank(t) < Rank(r.value) ==> !Mentions(lower, t)
  {
    if Mentions(lower, WeightLoss) then Some(WeightLoss)
    else if Mentions(lower, Breakfast) then Some(Breakfast)
    else if Mentions(lower, Protein) then Some(Protein)
    else if Mentions(lower, Water) then Some(Water)
    else None
  }

  /**
   * `generateResponse`: the image acknowledgement when an image is attached;
   * otherwise the advice of the first topic the lower-cased message mentions;
   * otherwise the generic reply at index `pick` (the source draws it at random).
   */
  function GenerateResponse(message: string, hasImage: bool, pick: nat): (r: string)
    requires pick < |Fallbacks|
    ensures hasImage ==> r == ImageReply
    ensures !hasImage && (forall t :: !Mentions(ToLower(message), t)) ==> r == Fallbacks[pick]
    ensures r == ImageReply || r in Fallbacks || exists t :: r == TopicReply(t)
  {
    if hasImage then ImageReply
    else
      match FirstTopic(ToLower(message))
      case Some(t) => TopicReply(t)
      case None => Fallbacks[pick]
  }

  /**
   * The nine replies are pairwise different texts, so a reply tells which branch
   * produced it: a generic reply is given exactly when no keyword matched.
   */
  lemma FallbackOnlyWithoutKeyword(message: string, hasImage: bool, pick: nat)
    requires pick < |Fallbacks|
    ensures GenerateResponse(message, hasImage, pick) in Fallbacks <==>
            !hasImage && forall t :: !Mentions(ToLower(message), t)
  {
    assert Fallback0[0] == '这' && Fallback1[0] == '我' && Fallback2[0] == '关' && Fallback3[0] == '您';
    assert Fallback1[1] == '理';
    assert ImageReply[1] == '看';
    assert Fallback2[2] == '这';
    assert WeightLossReply[2] == '健';
    assert BreakfastReply[0] == '健';
    assert ProteinReply[0] == '优';
    assert WaterReply[0] == '每';
  }

  /**
   * Priority: a message that mentions topic `t` and no topic checked before it
   * gets `t`'s advice, whatever later topics it also mentions.
   */
  lemma PriorityOrder(message: string, pick: nat, t: Topic)
    requires pick < |Fallbacks|
    requires Mentions(ToLower(message), t)
    requires forall u :: Rank(u) < Rank(t) ==> !Mentions(ToLower(message), u)
    ensures GenerateResponse(message, false, pick) == TopicReply(t)
  {
  }

  /** Once a keyword matches, the reply does not depend on the random pick. */
  lemma KeywordReplyDeterministic(message: string, i: nat, j: nat, t: Topic)
    requires i < |Fallbacks| && j < |Fallbacks|
    requires Mentions(ToLower(message), t)
    ensures GenerateResponse(message, false, i) == GenerateResponse(message, false, j)
    ensures GenerateResponse(message, false, i) in [WeightLossReply, BreakfastReply, ProteinReply, WaterReply]
  {
  }

  /** Matching ignores case: a message and its lower-cased form get the same reply. */
  lemma CaseInsensitive(message: string, hasImage: bool, pick: nat)
    requires pick < |Fallbacks|
    ensures GenerateResponse(ToLower(message), hasImage, pick) == GenerateResponse(message, hasImage, pick)
  {
    ToLowerIdempotent(message);
  }

  /** A keyword cannot occur in a text that lacks its first character. */
  lemma AbsentFirstChar(s: string, sub: string)
    requires sub != []
    requires forall i :: 0 <= i < |s| ==> s[i] != sub[0]
    ensures !Contains(s, sub)
  {
    forall i | 0 <= i && i + |sub| <= |s| ensures !OccursAt(s, sub, i) {
      assert s[i..i + |sub|][0] == s[i];
    }
  }

  /** "我想减肥" (I want to lose weight) gets the weight-loss advice, not a generic reply. */
  lemma WeightLossExample(pick: nat)
    requires pick < |Fallbacks|
    ensures GenerateResponse("我想减肥", false, pick) == WeightLossReply
  {
    var s := "我想减肥";
    assert ToLower(s) == s;
    assert OccursAt(s, "减肥", 2);
  }

  /** A message naming both breakfast and weight loss gets the weight-loss advice. */
  lemma WeightLossBeforeBreakfast(pick: nat)
    requires pick < |Fallbacks|
    ensures GenerateResponse("早餐怎么吃才能减肥", false, pick) == WeightLossReply
  {
    var s := "早餐怎么吃才能减肥";
    assert ToLower(s) == s;
    assert OccursAt(s, "减肥", 7);
  }

  /** "BREAKFAST" in capitals gets the breakfast advice. */
  lemma UpperCaseBreakfast(pick: nat)
    requires pick < |Fallbacks|
    ensures GenerateResponse("BREAKFAST", false, pick) == BreakfastReply
  {
    var lower := ToLower("BREAKFAST");
    assert lower == "breakfast";
    assert OccursAt(lower, "breakfast", 0);
    AbsentFirstChar(lower, "减肥");
    AbsentFirstChar(lower, "减脂");
  }

  /** "今天天气如何" (how is the weather today) matches no keyword and gets one of the four generic replies. */
  lemma NoKeywordExample(pick: nat)
    requires pick < |Fallbacks|
    ensures GenerateResponse("今天天气如何", false, pick) in Fallbacks
  {
    var s := "今天天气如何";
    assert ToLower(s) == s;
    forall t: Topic, k | 0 <= k < 2 ensures !Contains(s, Keywords(t)[k]) {
      AbsentFirstChar(s, Keywords(t)[k]);
    }
  }

  // ---------------------------------------------------------------------------
  // The chat session

  datatype Role = User | Assistant

  /** A chat message; `timestamp` is in ms since the epoch. */
  datatype Message = Message(id: string, role: Role, content: string, image: Option<string>, timestamp: int)

  /** A reply the assistant owes: the text it answers and whether an image came with it. */
  datatype Request = Request(text: string, hasImage: bool)

  /** An uploaded file: its MIME type and the data URL the file reader produces. */
  datatype ImageFile = ImageFile(mimeType: string, dataUrl: string)

  class ChatSession {
    /** The conversation, oldest first. */
    var messages: seq<Message>
    /** The text box. */
    var input: string
    /** Whether a reply is on its way (the typing indicator; it also disables the inputs). */
    var isLoading: bool
    /** The reply the latency timer will deliver, if one is scheduled. */
    var pending: Option<Request>

    /**
     * The loading indicator is on exactly while a reply is scheduled. While it
     * is on, the page disables the text box, the send button and the camera
     * button, so no new message can be started.
     */
    ghost predicate Valid()
      reads this
    {
      isLoading <==> pending.Some?
    }

    /** A new session holds only the assistant's welcome message. */
    constructor (now: int)
      ensures Valid()
      ensures messages == [Message("welcome", Assistant, WelcomeText, None, now)]
      ensures input == [] && !isLoading && pending.None?
    {
      messages := [Message("welcome", Assistant, WelcomeText, None, now)];
      input := [];
      isLoading := false;
      pending := None;
    }

    /**
     * `handleSend`: a blank input does nothing; otherwise the input becomes a
     * user message at the end of the conversation, the text box is cleared and
     * a reply to that text is scheduled.
     */
    method Send(id: string, now: int) returns (sent: bool)
      requires Valid() && !isLoading
      modifies this
      ensures Valid()
      ensures sent <==> exists i :: 0 <= i < |old(input)| && !IsWhitespace(old(input)[i])
      ensures !sent ==> && messages == old(messages) && input == old(input)
                        && isLoading == old(isLoading) && pending == old(pending)
      ensures sent ==> && messages == old(messages) + [Message(id, User, old(input), None, now)]
                       && |messages| == |old(messages)| + 1
                       && input == [] && isLoading
                       && pending == Some(Request(old(input), false))
    {
      TrimEmpty(input);
      if Trim(input) == [] {
        return false;
      }
      messages := messages + [Message(id, User, input, None, now)];
      pending := Some(Request(input, false));
      input := [];
      isLoading := true;
      sent := true;
    }

    /**
     * `handleImageUpload`: no file does nothing, a file that is not an image is
     * refused, and an image becomes a user message carrying it, with an image
     * reply scheduled. The text box is left alone.
     */
    method UploadImage(file: Option<ImageFile>, id: string, now: int) returns (accepted: bool)
      requires Valid() && !isLoading
      modifies this
      ensures Valid()
      ensures accepted <==> file.Some? && StartsWith(file.value.mimeType, "image/")
      ensures !accepted ==> && messages == old(messages) && isLoading == old(isLoading)
                            && pending == old(pending)
      ensures accepted ==> && messages == old(messages) + [Message(id, User, PhotoText, Some(file.value.dataUrl), now)]
                           && isLoading && pending == Some(Request([], true))
      ensures input == old(input)
    {
      if file.None? || !StartsWith(file.value.mimeType, "image/") {
        return false;
      }
      messages := messages + [Message(id, User, PhotoText, Some(file.value.dataUrl), now)];
      isLoading := true;
      pending := Some(Request([], true));
      accepted := true;
    }

    /**
     * The latency timer firing: the scheduled reply is appended as an assistant
     * message and the typing indicator goes off. `pick` stands for the random
     * choice among the generic replies.
     */
    method Deliver(pick: nat, id: string, now: int)
      requires Valid() && pick < |Fallbacks|
      modifies this
      ensures Valid()
      ensures old(pending).None? ==> && messages == old(messages) && isLoading == old(isLoading)
                                     && pending == old(pending)
      ensures old(pending).Some? ==>
        && messages == old(messages) + [Message(id, Assistant,
             GenerateResponse(old(pending).value.text, old(pending).value.hasImage, pick), None, now)]
        && !isLoading && pending.None?
      ensures input == old(input)
    {
      if pending.Some? {
        var reply := GenerateResponse(pending.value.text, pending.value.hasImage, pick);
        messages := messages + [Message(id, Assistant, reply, None, now)];
        isLoading := false;
        pending := None;
      }
    }
  }
}
