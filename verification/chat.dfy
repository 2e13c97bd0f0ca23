/** The canned chat-support responder (`generate_chat_response`): a crisis
    override, five keyword categories tried in a fixed order, and a fallback
    chosen by message length. */
module ChatResponder {
  import opened Text
  import opened Outcomes

  /** The keyword categories, named after the reply each one selects. */
  datatype Topic = Crisis | Anxiety | Depression | Stress | Sleep | Positive

  const CrisisPhrases: seq<string> := ["suicide", "kill myself", "end it all", "not worth living", "better off dead", "harm myself"]
  const AnxietyWords: seq<string> := ["anxious", "anxiety", "worried", "panic", "nervous"]
  const DepressionWords: seq<string> := ["depressed", "sad", "hopeless", "empty", "worthless"]
  const StressWords: seq<string> := ["stressed", "overwhelmed", "pressure", "burnout"]
  const SleepWords: seq<string> := ["sleep", "insomnia", "tired", "exhausted"]
  const PositiveWords: seq<string> := ["good", "better", "happy", "grateful", "thankful"]

  const CrisisReply: string := "I'm really concerned about what you're saying. If you're having thoughts of harming yourself, please reach out immediately to the 988 Suicide & Crisis Lifeline (call or text 988) or go to your nearest emergency room. You are valuable and worthy of help. You're not alone in this."
  const AnxietyReply: string := "I hear that you're feeling anxious right now. Anxiety can be really overwhelming. Try this grounding technique: Name 5 things you can see, 4 things you can touch, 3 things you can hear, 2 things you can smell, and 1 thing you can taste. This can help bring you back to the present moment. Would you like to talk more about what's causing your anxiety?"
  const DepressionReply: string := "I'm sorry you're feeling this way. Depression can make everything feel heavy and hopeless. Remember that these feelings are temporary, even when they don't feel like it. Small steps like going for a walk, eating something nourishing, or calling a friend can help. Have you been able to do any self-care activities today?"
  const StressReply: string := "Stress can feel overwhelming when it builds up. It's important to recognize when you need a break. Try the 4-7-8 breathing technique: Inhale for 4 counts, hold for 7 counts, exhale for 8 counts. This can help activate your body's relaxation response. What seems to be causing the most stress right now?"
  const SleepReply: string := "Sleep issues can really affect our mental health. Establishing a consistent bedtime routine can help. Try dimming lights an hour before bed, avoiding screens, and doing something relaxing like reading. If sleep problems persist, talking to a healthcare provider about sleep hygiene or other treatments might be helpful."
  const PositiveReply: string := "I'm glad to hear you're feeling positive! It's important to notice and celebrate these moments. What helped you feel this way? Recognizing what works for you can help you incorporate more of it into your life."

  /** The generic replies, one of which is picked by message length. */
  const SupportiveReplies: seq<string> := [
      "Thank you for sharing that with me. It takes courage to open up about how you're feeling. How long have you been feeling this way?",
      "I appreciate you trusting me with your thoughts. Everyone's mental health journey is unique. What coping strategies have worked for you in the past?",
      "It's completely valid to feel the way you do. Mental health challenges affect millions of people. You're not alone in this. What would be most helpful for you right now?",
      "Your feelings matter, and it's important to acknowledge them. Would you like to explore some coping strategies together, or would you prefer to talk more about what's on your mind?",
      "I'm here to listen without judgment. Sometimes just having someone to talk to can make a difference. What's one thing that's been particularly challenging lately?"
    ]


  function Keywords(t: Topic): seq<string> {
    match t
    case Crisis => CrisisPhrases
    case Anxiety => AnxietyWords
    case Depression => DepressionWords
    case Stress => StressWords
    case Sleep => SleepWords
    case Positive => PositiveWords
  }

  function TopicReply(t: Topic): string {
    match t
    case Crisis => CrisisReply
    case Anxiety => AnxietyReply
    case Depression => DepressionReply
    case Stress => StressReply
    case Sleep => SleepReply
    case Positive => PositiveReply
  }

  /** `text` contains some keyword of topic `t`. */
  ghost predicate Mentions(text: string, t: Topic) {
    exists k :: k in Keywords(t) && Occurs(k, text)
  }

  /** Executable test for `Mentions`: Python's `any(k in text for k in ...)`
      over the topic's keyword list. */
  predicate Matches(text: string, t: Topic)
    ensures Matches(text, t) <==> Mentions(text, t)
  {
    ContainsAny(text, Keywords(t))
  }

  /** Ruling out each of the six topics by name rules out every topic. */
  lemma NoTopicMentioned(text: string)
    requires !Mentions(text, Crisis) && !Mentions(text, Anxiety) && !Mentions(text, Depression)
    requires !Mentions(text, Stress) && !Mentions(text, Sleep) && !Mentions(text, Positive)
    ensures forall t :: !Mentions(text, t)
  {
    forall t
      ensures !Mentions(text, t)
    {
      match t
      case Crisis =>
      case Anxiety =>
      case Depression =>
      case Stress =>
      case Sleep =>
      case Positive =>
    }
  }

  /** Which reply the responder picks: a topic's reply, or the supportive
      reply at a position. */
  datatype Reply = Topical(topic: Topic) | Supportive(index: nat)

  /** The reply choice as the source writes it: lower-case the message, test
      the crisis phrases, then each category in turn, and fall back on the
      supportive reply indexed by the length of the original message. */
  function ChooseReply(message: string): (c: Reply)
    ensures c.Topical? ==> Mentions(Lower(message), c.topic)
    ensures c.Supportive? ==> c.index == |message| % 5 && c.index < |SupportiveReplies|
    ensures c.Supportive? ==> forall t :: !Mentions(Lower(message), t)
  {
    var lower := Lower(message);
    if Matches(lower, Crisis) then Topical(Crisis)
    else if Matches(lower, Anxiety) then Topical(Anxiety)
    else if Matches(lower, Depression) then Topical(Depression)
    else if Matches(lower, Stress) then Topical(Stress)
    else if Matches(lower, Sleep) then Topical(Sleep)
    else if Matches(lower, Positive) then Topical(Positive)
    else
      NoTopicMentioned(lower);
      Supportive(|message| % |SupportiveReplies|)
  }

  function ReplyText(c: Reply): string
    requires c.Supportive? ==> c.index < |SupportiveReplies|
  {
    match c
    case Topical(t) => TopicReply(t)
    case Supportive(i) => SupportiveReplies[i]
  }

  /** Every string the responder can return. */
  const AllReplies: seq<string> :=
    [CrisisReply, AnxietyReply, DepressionReply, StressReply, SleepReply, PositiveReply] + SupportiveReplies

  /** The responder: always one of the eleven fixed replies, and the crisis
      reply whenever the lower-cased message holds a crisis phrase. */
  function GenerateChatResponse(message: string): (r: string)
    ensures r in AllReplies
    ensures Mentions(Lower(message), Crisis) ==> r == CrisisReply
  {
    ReplyText(ChooseReply(message))
  }

  /** The order in which the topics are tried. */
  const Precedence: seq<Topic> := [Crisis, Anxiety, Depression, Stress, Sleep, Positive]

  /** Position of a topic in the precedence order. */
  function Rank(t: Topic): (n: nat)
    ensures n < |Precedence| && Precedence[n] == t
  {
    match t
    case Crisis => 0
    case Anxiety => 1
    case Depression => 2
    case Stress => 3
    case Sleep => 4
    case Positive => 5
  }

  /** First-match-wins over an ordered rule list: the position of the first
      topic in `rules` that `text` mentions, if any. */
  function FirstMatch(rules: seq<Topic>, text: string): (r: Option<nat>)
    ensures r.Some? ==> r.value < |rules| && Mentions(text, rules[r.value])
    ensures r.Some? ==> forall j :: 0 <= j < r.value ==> !Mentions(text, rules[j])
    ensures r.None? ==> forall j :: 0 <= j < |rules| ==> !Mentions(text, rules[j])
  {
    if |rules| == 0 then None
    else if Matches(text, rules[0]) then Some(0)
    else
      match FirstMatch(rules[1..], text)
      case None => None
      case Some(i) => Some(i + 1)
  }

  /** Ruling out every topic of the precedence list rules out every topic. */
  lemma NothingMentioned(text: string)
    requires forall j :: 0 <= j < |Precedence| ==> !Mentions(text, Precedence[j])
    ensures forall t :: !Mentions(text, t)
  {
    forall t
      ensures !Mentions(text, t)
    {
      assert Precedence[Rank(t)] == t;
    }
  }

  /** The topic a message is classified under by the ordered rule table, or
      None when it mentions no topic at all. */
  function Classify(message: string): (r: Option<Topic>)
    ensures r.Some? ==> Mentions(Lower(message), r.value)
    ensures r.Some? ==> forall t :: Rank(t) < Rank(r.value) ==> !Mentions(Lower(message), t)
    ensures r.None? ==> forall t :: !Mentions(Lower(message), t)
  {
    match FirstMatch(Precedence, Lower(message))
    case None =>
      NothingMentioned(Lower(message));
      None
    case Some(i) => Some(Precedence[i])
  }

  /** The if-chain and the ordered rule table pick the same reply for every
      message. */
  lemma RuleTableAgrees(message: string)
    ensures ChooseReply(message) == match Classify(message)
      case Some(t) => Topical(t)
      case None => Supportive(|message| % |SupportiveReplies|)
  {
  }

  /** A crisis phrase anywhere in the lower-cased message wins, whatever
      other keywords the message also contains. */
  lemma CrisisOverrides(message: string, phrase: string)
    requires phrase in CrisisPhrases
    requires Occurs(phrase, Lower(message))
    ensures ChooseReply(message) == Topical(Crisis)
    ensures GenerateChatResponse(message) == CrisisReply
  {
  }

  /** Precedence: the earliest topic the message mentions decides the reply,
      whatever later topics it mentions as well. */
  lemma EarliestTopicWins(message: string, t: Topic)
    requires Mentions(Lower(message), t)
    requires forall u :: Rank(u) < Rank(t) ==> !Mentions(Lower(message), u)
    ensures ChooseReply(message) == Topical(t)
    ensures GenerateChatResponse(message) == TopicReply(t)
  {
    RuleTableAgrees(message);
    var c := Classify(message);
    assert c.Some?;
    assert Precedence[Rank(c.value)] == c.value && Precedence[Rank(t)] == t;
    assert c.value == t;
  }

  /** Without any keyword the reply is the supportive reply indexed by the
      message length modulo five. */
  lemma FallbackByLength(message: string)
    requires forall t :: !Mentions(Lower(message), t)
    ensures ChooseReply(message) == Supportive(|message| % 5)
    ensures GenerateChatResponse(message) == SupportiveReplies[|message| % 5]
  {
  }

  /** The empty message falls back to the first supportive reply. */
  lemma EmptyMessageReply()
    ensures ChooseReply("") == Supportive(0)
  {
    assert Lower("") == "";
    forall t
      ensures !Mentions("", t)
    {
      forall k | k in Keywords(t)
        ensures !Occurs(k, "")
      {
        assert |k| > 0;
      }
    }
    FallbackByLength("");
  }

  /** Matching ignores letter case: messages with the same lower-case form
      get the same reply, including the fallback one. */
  lemma CaseInsensitive(a: string, b: string)
    requires Lower(a) == Lower(b)
    ensures ChooseReply(a) == ChooseReply(b)
  {
  }

  /** Replying to the lower-cased message is replying to the message. */
  lemma LowerCasedMessageSameReply(message: string)
    ensures ChooseReply(Lower(message)) == ChooseReply(message)
  {
    LowerIdempotent(message);
    CaseInsensitive(Lower(message), message);
  }

  /** The eleven replies are pairwise different, so a reply tells which
      branch produced it. */
  lemma RepliesDistinct()
    ensures |AllReplies| == 11
    ensures forall i, j :: 0 <= i < j < |AllReplies| ==> AllReplies[i] != AllReplies[j]
  {
  }

  /** Where a reply's text sits in `AllReplies`: topics in precedence
      order, then the supportive replies. */
  function ReplyIndex(c: Reply): (n: nat)
    requires c.Supportive? ==> c.index < |SupportiveReplies|
    ensures n < |AllReplies| && AllReplies[n] == ReplyText(c)
    ensures c.Topical? <==> n < |Precedence|
  {
    match c
    case Topical(t) => Rank(t)
    case Supportive(i) => |Precedence| + i
  }

  /** Different reply choices give different texts. */
  lemma ReplyTextInjective(c: Reply, d: Reply)
    requires c.Supportive? ==> c.index < |SupportiveReplies|
    requires d.Supportive? ==> d.index < |SupportiveReplies|
    ensures ReplyText(c) == ReplyText(d) ==> c == d
  {
    if ReplyText(c) == ReplyText(d) {
      RepliesDistinct();
      var i, j := ReplyIndex(c), ReplyIndex(d);
      assert AllReplies[i] == AllReplies[j];
      assert i == j;
      if c.Topical? {
        assert Precedence[Rank(c.topic)] == c.topic && Precedence[Rank(d.topic)] == d.topic;
      }
    }
  }

  /** The reply identifies the topic: a message gets topic `t`'s reply
      exactly when the rule table classifies it under `t`. */
  lemma ReplyIdentifiesTopic(message: string, t: Topic)
    ensures GenerateChatResponse(message) == TopicReply(t) <==> Classify(message) == Some(t)
  {
    RuleTableAgrees(message);
    if GenerateChatResponse(message) == TopicReply(t) {
      ReplyTextInjective(ChooseReply(message), Topical(t));
    }
  }

  /** "better" is a positive word, yet any message saying "better off dead"
      mentions both topics and gets the crisis reply. */
  lemma BetterOffDeadIsCrisis(message: string)
    requires Occurs("better off dead", Lower(message))
    ensures Mentions(Lower(message), Positive)
    ensures ChooseReply(message) == Topical(Crisis)
  {
    var lower := Lower(message);
    var i: nat :| i <= |lower| && OccursAt("better off dead", lower, i);
    assert "better" <= "better off dead";
    assert OccursAt("better", lower, i);
    assert "better" in PositiveWords;
    CrisisOverrides(message, "better off dead");
  }
}
