/** chatWithBot of backend/controllers/chatbotController.js. Without a language model the
    reply is chosen by keyword: the message is lower-cased and tested against six groups
    of keywords in a fixed order, the first group with a keyword in the message deciding
    the topic. The language-model completion is a parameter; the reply texts themselves
    are represented by their topic. */
module Chatbot {
  import opened Common
  import opened Text

  /** The canned replies, one per keyword group, and the default help text. */
  datatype Topic = Hours | Contact | Location | Pricing | Scheduling | Offerings | Help

  /** What the handler answers. */
  datatype ChatReply =
    | BadRequest                 // 400: no message
    | Canned(topic: Topic)       // 200 with a keyword reply
    | Completion(text: string)   // 200 with the language model's reply
    | Unavailable                // 500 with the "call us" reply

  /** The keyword groups in the order the handler tests them. */
  const Groups: seq<(Topic, seq<string>)> := [
    (Hours, ["hours", "open", "time"]),
    (Contact, ["phone", "call", "contact"]),
    (Location, ["address", "location", "where"]),
    (Pricing, ["price", "cost", "how much"]),
    (Scheduling, ["schedule", "appointment", "book"]),
    (Offerings, ["service", "repair"])
  ]

  /** Some keyword of `keywords` occurs in `s`. */
  predicate AnyIn(s: string, keywords: seq<string>) {
    exists k :: k in keywords && Contains(s, k)
  }

  /** The if/else-if chain of the fallback branch, over the lower-cased message. */
  function FallbackTopic(lower: string): (t: Topic)
    ensures t == Hours <==> Contains(lower, "hours") || Contains(lower, "open") || Contains(lower, "time")
    ensures t == Help ==> !Contains(lower, "service") && !Contains(lower, "repair")
  {
    if Contains(lower, "hours") || Contains(lower, "open") || Contains(lower, "time") then Hours
    else if Contains(lower, "phone") || Contains(lower, "call") || Contains(lower, "contact") then Contact
    else if Contains(lower, "address") || Contains(lower, "location") || Contains(lower, "where") then Location
    else if Contains(lower, "price") || Contains(lower, "cost") || Contains(lower, "how much") then Pricing
    else if Contains(lower, "schedule") || Contains(lower, "appointment") || Contains(lower, "book") then Scheduling
    else if Contains(lower, "service") || Contains(lower, "repair") then Offerings
    else Help
  }

  /** The reference reading of the chain: the topic of the first group, in table order,
      with a keyword in the message; the help text when none has one. */
  function FirstMatch(groups: seq<(Topic, seq<string>)>, lower: string): Topic
  {
    if groups == [] then Help
    else if AnyIn(lower, groups[0].1) then groups[0].0
    else FirstMatch(groups[1..], lower)
  }

  /** With no group labelled with the help text, the walk gives the help text exactly
      when no group matches, and otherwise the topic of the first group that matches. */
  lemma {:induction false} FirstMatchSpec(groups: seq<(Topic, seq<string>)>, lower: string)
    requires forall i :: 0 <= i < |groups| ==> groups[i].0 != Help
    ensures FirstMatch(groups, lower) == Help <==> forall i :: 0 <= i < |groups| ==> !AnyIn(lower, groups[i].1)
    ensures FirstMatch(groups, lower) != Help ==>
              exists i :: 0 <= i < |groups| && groups[i].0 == FirstMatch(groups, lower) && AnyIn(lower, groups[i].1) &&
                forall j :: 0 <= j < i ==> !AnyIn(lower, groups[j].1)
  {
    if groups != [] && !AnyIn(lower, groups[0].1) {
      var rest := groups[1..];
      var t := FirstMatch(rest, lower);
      FirstMatchSpec(rest, lower);
      assert forall i :: 1 <= i < |groups| ==> groups[i] == rest[i - 1];
      if t != Help {
        var i :| 0 <= i < |rest| && rest[i].0 == t && AnyIn(lower, rest[i].1) &&
                 forall j :: 0 <= j < i ==> !AnyIn(lower, rest[j].1);
        assert groups[i + 1].0 == t && AnyIn(lower, groups[i + 1].1);
        forall j | 0 <= j < i + 1 ensures !AnyIn(lower, groups[j].1) {
          if j > 0 {
            assert groups[j] == rest[j - 1];
          }
        }
      }
    }
  }

  /** One step of the table walk. */
  lemma FirstMatchStep(g: (Topic, seq<string>), rest: seq<(Topic, seq<string>)>, lower: string)
    ensures FirstMatch([g] + rest, lower) == if AnyIn(lower, g.1) then g.0 else FirstMatch(rest, lower)
  {
    assert ([g] + rest)[1..] == rest;
  }

  lemma {:induction false} AnyInThree(s: string, a: string, b: string, c: string)
    ensures AnyIn(s, [a, b, c]) <==> Contains(s, a) || Contains(s, b) || Contains(s, c)
  {
    assert a in [a, b, c] && b in [a, b, c] && c in [a, b, c];
  }

  lemma {:induction false} AnyInTwo(s: string, a: string, b: string)
    ensures AnyIn(s, [a, b]) <==> Contains(s, a) || Contains(s, b)
  {
    assert a in [a, b] && b in [a, b];
  }

  /** The chain and the table agree on every message. */
  lemma {:induction false} FallbackIsFirstMatch(lower: string)
    ensures FallbackTopic(lower) == FirstMatch(Groups, lower)
  {
    var g0, g1, g2, g3, g4, g5 := Groups[0], Groups[1], Groups[2], Groups[3], Groups[4], Groups[5];
    AnyInThree(lower, "hours", "open", "time");
    AnyInThree(lower, "phone", "call", "contact");
    AnyInThree(lower, "address", "location", "where");
    AnyInThree(lower, "price", "cost", "how much");
    AnyInThree(lower, "schedule", "appointment", "book");
    AnyInTwo(lower, "service", "repair");
    var r5: seq<(Topic, seq<string>)> := [];
    FirstMatchStep(g5, r5, lower);
    FirstMatchStep(g4, [g5] + r5, lower);
    FirstMatchStep(g3, [g4] + ([g5] + r5), lower);
    FirstMatchStep(g2, [g3] + ([g4] + ([g5] + r5)), lower);
    FirstMatchStep(g1, [g2] + ([g3] + ([g4] + ([g5] + r5))), lower);
    FirstMatchStep(g0, [g1] + ([g2] + ([g3] + ([g4] + ([g5] + r5)))), lower);
    assert Groups == [g0] + ([g1] + ([g2] + ([g3] + ([g4] + ([g5] + r5)))));
  }

  /** chatWithBot. 400 for a missing, empty or blank message; with a language model, its
      completion, or 500 when the call fails; otherwise the first matching group's reply
      for the lower-cased message. `complete` is `None` when no model is configured. */
  function ChatWithBot(message: Field<string>, complete: Option<string -> Option<string>>): (r: ChatReply)
    ensures r == BadRequest <==> !TruthyStr(message) || Trim(message.v) == ""
    ensures r.Canned? <==> r != BadRequest && complete.None?
    ensures r.Canned? ==> r.topic == FirstMatch(Groups, ToLower(message.v))
    ensures r == Unavailable <==> r != BadRequest && complete.Some? && complete.value(message.v).None?
    ensures r.Completion? <==> r != BadRequest && complete.Some? && complete.value(message.v).Some?
    ensures r.Completion? ==> r.text == complete.value(message.v).value
  {
    if !TruthyStr(message) || Trim(message.v) == "" then BadRequest
    else if complete.Some? then
      match complete.value(message.v)
      case Some(text) => Completion(text)
      case None => Unavailable
    else
      FallbackIsFirstMatch(ToLower(message.v));
      Canned(FallbackTopic(ToLower(message.v)))
  }

  /** A keyword of a group leads to that group's reply unless an earlier group also
      matches; matching ignores case because the message is lower-cased first. */
  lemma {:induction false} KeywordWins(message: string, i: int, k: string)
    requires Trim(message) != [] && 0 <= i < |Groups| && k in Groups[i].1
    requires Contains(ToLower(message), k)
    requires forall j :: 0 <= j < i ==> !AnyIn(ToLower(message), Groups[j].1)
    ensures ChatWithBot(Value(message), None) == Canned(Groups[i].0)
  {
    var lower := ToLower(message);
    assert AnyIn(lower, Groups[i].1);
    FirstMatchAt(Groups, lower, i);
  }

  /** The walk stops at the first group that matches. */
  lemma {:induction false} FirstMatchAt(groups: seq<(Topic, seq<string>)>, lower: string, i: int)
    requires 0 <= i < |groups| && AnyIn(lower, groups[i].1)
    requires forall j :: 0 <= j < i ==> !AnyIn(lower, groups[j].1)
    ensures FirstMatch(groups, lower) == groups[i].0
  {
    if i > 0 {
      var rest := groups[1..];
      assert rest[i - 1] == groups[i];
      assert forall j :: 0 <= j < i - 1 ==> rest[j] == groups[j + 1];
      FirstMatchAt(rest, lower, i - 1);
    }
  }
}
