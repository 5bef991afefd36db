/**
 * The section composer: what the chat view renders for a list of sections,
 * and the flat message list it hands to the citation extractor.
 */
module Composer {
  import opened Messages
  import ChatError

  /** The messages of one section in render order: the user message, then the replies. */
  function SectionMessages(section: Section): seq<Message> {
    [section.userMessage] + section.assistantMessages
  }

  /** Every message of the conversation, section by section: as many as the sections hold. */
  function Flatten(sections: seq<Section>): (all: seq<Message>)
    ensures |all| == MessageTotal(sections)
    decreases |sections|
  {
    if sections == [] then [] else SectionMessages(sections[0]) + Flatten(sections[1..])
  }

  /** How many messages the sections hold, counted section by section. */
  function MessageTotal(sections: seq<Section>): nat
    decreases |sections|
  {
    if sections == [] then 0 else 1 + |sections[0].assistantMessages| + MessageTotal(sections[1..])
  }

  /** Flattening respects concatenation of section lists. */
  lemma {:induction false} FlattenAppend(a: seq<Section>, b: seq<Section>)
    ensures Flatten(a + b) == Flatten(a) + Flatten(b)
    decreases |a|
  {
    if a == [] {
      assert a + b == b;
    } else {
      assert (a + b)[0] == a[0];
      assert (a + b)[1..] == a[1..] + b;
      FlattenAppend(a[1..], b);
    }
  }

  /**
   * Every message sits where its section puts it: section `k`'s user message
   * (`m == 0`) or its `m`-th message in render order comes right after all
   * messages of the sections before `k`.
   */
  lemma FlattenPosition(sections: seq<Section>, k: nat, m: nat)
    requires k < |sections| && m <= |sections[k].assistantMessages|
    ensures MessageTotal(sections[..k]) + m < |Flatten(sections)|
    ensures Flatten(sections)[MessageTotal(sections[..k]) + m] == SectionMessages(sections[k])[m]
  {
    var before, here, after := sections[..k], [sections[k]], sections[k + 1..];
    assert sections == before + (here + after);
    FlattenAppend(before, here + after);
    FlattenAppend(here, after);
    assert here[1..] == [];
    var front, rest := Flatten(before), Flatten(here) + Flatten(after);
    assert Flatten(here) == SectionMessages(sections[k]);
    assert |front| == MessageTotal(before);
    assert Flatten(sections) == front + rest;
    assert rest[m] == SectionMessages(sections[k])[m];
  }

  /** `allMessages` built by the `forEach` loop: push each user message, then its replies. */
  method CollectMessages(sections: seq<Section>) returns (all: seq<Message>)
    ensures all == Flatten(sections)
  {
    all := [];
    var i := 0;
    while i < |sections|
      invariant i <= |sections|
      invariant all == Flatten(sections[..i])
    {
      FlattenAppend(sections[..i], [sections[i]]);
      assert sections[..i + 1] == sections[..i] + [sections[i]];
      assert [sections[i]][1..] == [];
      all := all + [sections[i].userMessage];
      all := all + sections[i].assistantMessages;
      i := i + 1;
    }
    assert sections[..i] == sections;
  }

  /**
   * `allCitationMaps`: the citation extractor, whose merge policy is not part
   * of this model, applied once to the flat message list.
   */
  method AllCitationMaps<C>(sections: seq<Section>, extract: seq<Message> -> C) returns (maps: C)
    ensures maps == extract(Flatten(sections))
  {
    var all := CollectMessages(sections);
    maps := extract(all);
  }

  /** One element the view renders. */
  datatype RenderItem =
    | UserItem(section: nat, message: Message)
    | AssistantItem(section: nat, index: nat, message: Message, isLatestMessage: bool)
    | LoadingIndicator(section: nat)
    | ErrorSlot(section: nat, error: ChatError.ErrorValue)
  {
    predicate IsMessage() {
      UserItem? || AssistantItem?
    }
  }

  /** The affordances rendered after the messages of section `k` when it is the last one. */
  function Affordances(k: nat, status: Status, error: ChatError.ErrorValue): seq<RenderItem> {
    (if IsLoading(status) then [LoadingIndicator(k)] else []) + [ErrorSlot(k, error)]
  }

  /** The message items of section `k`: its user message, then its replies. */
  function SectionHead(sections: seq<Section>, k: nat): seq<RenderItem>
    requires k < |sections|
  {
    var last := k == |sections| - 1;
    var replies := sections[k].assistantMessages;
    [UserItem(k, sections[k].userMessage)]
    + seq(|replies|, j requires 0 <= j < |replies| => AssistantItem(k, j, replies[j], last && j == |replies| - 1))
  }

  /** The items of section `k`: its message items, and the affordances if it is last. */
  function SectionItems(sections: seq<Section>, k: nat, status: Status, error: ChatError.ErrorValue): seq<RenderItem>
    requires k < |sections|
  {
    SectionHead(sections, k) + (if k == |sections| - 1 then Affordances(k, status, error) else [])
  }

  /** The items of the first `n` sections, in section order. */
  function ComposeUpTo(sections: seq<Section>, n: nat, status: Status, error: ChatError.ErrorValue): seq<RenderItem>
    requires n <= |sections|
  {
    if n == 0 then [] else ComposeUpTo(sections, n - 1, status, error) + SectionItems(sections, n - 1, status, error)
  }

  /** What `ChatMessages` renders: nothing at all exactly when there are no sections. */
  function Compose(sections: seq<Section>, status: Status, error: ChatError.ErrorValue): (r: seq<RenderItem>)
    ensures r == [] <==> sections == []
  {
    if sections == [] then []
    else ComposeUpTo(sections, |sections|, status, error)
  }

  /** The messages of the message items, in item order. */
  function MessagesOf(items: seq<RenderItem>): seq<Message>
    decreases |items|
  {
    if items == [] then []
    else (if items[0].IsMessage() then [items[0].message] else []) + MessagesOf(items[1..])
  }

  lemma {:induction false} MessagesOfAppend(a: seq<RenderItem>, b: seq<RenderItem>)
    ensures MessagesOf(a + b) == MessagesOf(a) + MessagesOf(b)
    decreases |a|
  {
    if a == [] {
      assert a + b == b;
    } else {
      assert (a + b)[0] == a[0];
      assert (a + b)[1..] == a[1..] + b;
      MessagesOfAppend(a[1..], b);
    }
  }

  lemma {:induction false} MessagesOfMessageItems(items: seq<RenderItem>, msgs: seq<Message>)
    requires |items| == |msgs|
    requires forall i :: 0 <= i < |items| ==> items[i].IsMessage() && items[i].message == msgs[i]
    ensures MessagesOf(items) == msgs
    decreases |items|
  {
    if items != [] {
      MessagesOfMessageItems(items[1..], msgs[1..]);
    }
  }

  lemma SectionItemsMessages(sections: seq<Section>, k: nat, status: Status, error: ChatError.ErrorValue)
    requires k < |sections|
    ensures MessagesOf(SectionItems(sections, k, status, error)) == SectionMessages(sections[k])
  {
    var last := k == |sections| - 1;
    var tail := if last then Affordances(k, status, error) else [];
    MessagesOfMessageItems(SectionHead(sections, k), SectionMessages(sections[k]));
    MessagesOfAppend(SectionHead(sections, k), tail);
    if last {
      AffordancesHoldNoMessages(k, status, error);
    }
  }

  lemma AffordancesHoldNoMessages(k: nat, status: Status, error: ChatError.ErrorValue)
    ensures MessagesOf(Affordances(k, status, error)) == []
  {
    var t := Affordances(k, status, error);
    assert MessagesOf([ErrorSlot(k, error)]) == [] by {
      assert [ErrorSlot(k, error)][1..] == [];
    }
    if IsLoading(status) {
      assert t[1..] == [ErrorSlot(k, error)];
    }
  }

  lemma {:induction false} ComposeUpToMessages(sections: seq<Section>, n: nat, status: Status, error: ChatError.ErrorValue)
    requires n <= |sections|
    ensures MessagesOf(ComposeUpTo(sections, n, status, error)) == Flatten(sections[..n])
  {
    if n > 0 {
      var earlier, section := sections[..n - 1], sections[n - 1];
      ComposeUpToMessages(sections, n - 1, status, error);
      MessagesOfAppend(ComposeUpTo(sections, n - 1, status, error), SectionItems(sections, n - 1, status, error));
      SectionItemsMessages(sections, n - 1, status, error);
      assert sections[..n] == earlier + [section];
      FlattenAppend(earlier, [section]);
      assert Flatten([section]) == SectionMessages(section) by {
        assert [section][1..] == [];
      }
    }
  }

  /**
   * The messages rendered, read in order, are exactly the flat list the
   * citation extractor receives: user message first, then that section's
   * replies, section by section.
   */
  lemma RenderOrderIsCitationOrder(sections: seq<Section>, status: Status, error: ChatError.ErrorValue)
    ensures MessagesOf(Compose(sections, status, error)) == Flatten(sections)
  {
    if sections != [] {
      ComposeUpToMessages(sections, |sections|, status, error);
      assert sections[..|sections|] == sections;
    }
  }

  /** Where an item may appear: everything an item says agrees with the sections, status and error. */
  predicate Placed(sections: seq<Section>, status: Status, error: ChatError.ErrorValue, t: RenderItem) {
    match t
    case UserItem(k, m) => k < |sections| && m == sections[k].userMessage
    case AssistantItem(k, j, m, latest) =>
      && k < |sections| && j < |sections[k].assistantMessages| && m == sections[k].assistantMessages[j]
      && (latest <==> k == |sections| - 1 && j == |sections[k].assistantMessages| - 1)
    case LoadingIndicator(k) => k == |sections| - 1 && IsLoading(status)
    case ErrorSlot(k, e) => k == |sections| - 1 && e == error
  }

  lemma {:induction false} ComposeUpToPlaced(sections: seq<Section>, n: nat, status: Status, error: ChatError.ErrorValue)
    requires n <= |sections|
    ensures forall t :: t in ComposeUpTo(sections, n, status, error) ==> Placed(sections, status, error, t)
  {
    if n > 0 {
      ComposeUpToPlaced(sections, n - 1, status, error);
      var items := SectionItems(sections, n - 1, status, error);
      forall t | t in items ensures Placed(sections, status, error, t) {
      }
    }
  }

  /**
   * Every item is placed: loading indicators only on the last section and only
   * while loading, the error slot only on the last section, and
   * `isLatestMessage` on exactly the last reply of the last section.
   */
  lemma AffordancesOnlyOnLastSection(sections: seq<Section>, status: Status, error: ChatError.ErrorValue)
    ensures forall t :: t in Compose(sections, status, error) ==> Placed(sections, status, error, t)
  {
    if sections != [] {
      ComposeUpToPlaced(sections, |sections|, status, error);
    }
  }

  lemma {:induction false} EarlierSectionsOnlyMessages(sections: seq<Section>, n: nat, status: Status, error: ChatError.ErrorValue)
    requires n < |sections|
    ensures forall t :: t in ComposeUpTo(sections, n, status, error) ==> t.IsMessage() && !(t.AssistantItem? && t.isLatestMessage)
  {
    if n > 0 {
      EarlierSectionsOnlyMessages(sections, n - 1, status, error);
    }
  }

  /** The message items of the last section: all messages, and only the last one can be latest. */
  lemma LastSectionHead(sections: seq<Section>)
    requires sections != []
    ensures var head := SectionHead(sections, |sections| - 1);
            var replies := sections[|sections| - 1].assistantMessages;
            && |head| == 1 + |replies|
            && (forall i :: 0 <= i < |head| ==> head[i].IsMessage())
            && (forall i :: 0 <= i < |head| - 1 ==> !(head[i].AssistantItem? && head[i].isLatestMessage))
            && (replies != [] ==> head[|head| - 1] == AssistantItem(|sections| - 1, |replies| - 1, replies[|replies| - 1], true))
  {
  }

  /**
   * With at least one section the render ends with the affordances of the
   * last section (the loading indicator while loading, then the error slot);
   * everything before them is a message, and the only item flagged
   * `isLatestMessage` is the one right before them, the last reply of the
   * last section, when it has replies.
   */
  lemma ComposeEndsWithAffordances(sections: seq<Section>, status: Status, error: ChatError.ErrorValue)
    requires sections != []
    ensures var items := Compose(sections, status, error);
            var tail := Affordances(|sections| - 1, status, error);
            && |tail| < |items|
            && items[|items| - |tail|..] == tail
            && (forall i :: 0 <= i < |items| - |tail| ==> items[i].IsMessage())
            && (forall i :: 0 <= i < |items| - |tail| - 1 ==> !(items[i].AssistantItem? && items[i].isLatestMessage))
            && var replies := sections[|sections| - 1].assistantMessages;
               replies != [] ==>
                 items[|items| - |tail| - 1] == AssistantItem(|sections| - 1, |replies| - 1, replies[|replies| - 1], true)
  {
    var k := |sections| - 1;
    var items := Compose(sections, status, error);
    var tail := Affordances(k, status, error);
    var prefix := ComposeUpTo(sections, k, status, error);
    var head := SectionHead(sections, k);
    EarlierSectionsOnlyMessages(sections, k, status, error);
    LastSectionHead(sections);
    var front := prefix + head;
    assert items == front + tail;
    forall i | 0 <= i < |front| ensures front[i].IsMessage() && (i < |front| - 1 ==> !(front[i].AssistantItem? && front[i].isLatestMessage)) {
      if i < |prefix| {
        assert front[i] == prefix[i];
        assert prefix[i] in prefix;
      } else {
        assert front[i] == head[i - |prefix|];
      }
    }
    assert items[|items| - |tail|..] == tail;
    assert forall i :: 0 <= i < |front| ==> items[i] == front[i];
  }
}
