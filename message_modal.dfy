/** The status-message composer: a table of quick messages grouped by
    category, a category tab selection, and a free-text draft that is sent
    only when it is not blank. */
module MessageModal {
  import opened Seqs
  import opened JsString

  datatype Category = Now | Later | Social

  datatype Message = Message(emoji: string, text: string, category: Category)

  /** The quick messages, in display order: four per category. */
  const PredefinedMessages: seq<Message> := [
    Message("🏃‍♂️", "지금 산책 나갑니다!", Now),
    Message("🐕", "공원에 도착했어요!", Now),
    Message("☕", "잠시 휴식 중이에요", Now),
    Message("🏠", "집으로 돌아갑니다", Now),
    Message("⏰", "30분 후에 나갈게요", Later),
    Message("🌅", "아침 7시에 만나요", Later),
    Message("🌆", "저녁 6시에 산책 나갈게요", Later),
    Message("📅", "내일 같은 시간에 만나요", Later),
    Message("😊", "반가워요!", Social),
    Message("👋", "안녕히 가세요~", Social),
    Message("🤝", "함께 산책해요", Social),
    Message("📸", "사진 찍어드릴까요?", Social)
  ]

  /** The quick messages shown under the tab `c`, in table order. */
  function FilteredMessages(c: Category): seq<Message>
  {
    Filter(PredefinedMessages, InCategory(c))
  }

  /** `msg => msg.category === selectedCategory`. */
  function InCategory(c: Category): Message -> bool
  {
    (m: Message) => m.category == c
  }

  /** Table rows 0-3, 4-7 and 8-11 are the "now", "later" and "social"
      messages respectively. */
  predicate ThreeBlocks(t: seq<Message>)
  {
    && |t| == 12
    && (forall i :: 0 <= i < 4 ==> t[i].category == Now)
    && (forall i :: 4 <= i < 8 ==> t[i].category == Later)
    && (forall i :: 8 <= i < 12 ==> t[i].category == Social)
  }

  lemma TableBlocks()
    ensures ThreeBlocks(PredefinedMessages)
  {
  }

  /** A block whose messages all share one category survives a category
      filter whole or not at all. */
  lemma FilterBlock(block: seq<Message>, blockCategory: Category, c: Category)
    requires forall i :: 0 <= i < |block| ==> block[i].category == blockCategory
    ensures blockCategory == c ==> Filter(block, InCategory(c)) == block
    ensures blockCategory != c ==> Filter(block, InCategory(c)) == []
  {
    if blockCategory == c {
      FilterAll(block, InCategory(c));
    } else {
      FilterNone(block, InCategory(c));
    }
  }

  /** Filtering a "now" block, a "later" block and a "social" block, laid end
      to end, by a category yields that category's block. */
  lemma FilterThreeBlocks(now: seq<Message>, later: seq<Message>, social: seq<Message>, c: Category)
    requires forall i :: 0 <= i < |now| ==> now[i].category == Now
    requires forall i :: 0 <= i < |later| ==> later[i].category == Later
    requires forall i :: 0 <= i < |social| ==> social[i].category == Social
    ensures Filter(now + later + social, InCategory(c)) == match c case Now => now case Later => later case Social => social
  {
    FilterAppend(now + later, social, InCategory(c));
    FilterAppend(now, later, InCategory(c));
    FilterBlock(now, Now, c);
    FilterBlock(later, Later, c);
    FilterBlock(social, Social, c);
    assert now + [] == now && [] + later == later && [] + social == social;
  }

  /** In any table made of three blocks of four laid out like the quick
      messages, filtering by a category yields that category's block. */
  lemma FilterBlocks(t: seq<Message>, c: Category)
    requires ThreeBlocks(t)
    ensures Filter(t, InCategory(c)) == t[4 * CategoryIndex(c)..4 * CategoryIndex(c) + 4]
  {
    var now, later, social := t[0..4], t[4..8], t[8..12];
    assert t == now + later + social;
    assert forall i :: 0 <= i < 4 ==> later[i] == t[4 + i] && social[i] == t[8 + i];
    FilterThreeBlocks(now, later, social, c);
  }

  /** Each tab shows exactly its own category's block of the table, in table
      order: four messages, all of that category. */
  lemma FilteredMessagesExact(c: Category)
    ensures FilteredMessages(c) == PredefinedMessages[4 * CategoryIndex(c)..4 * CategoryIndex(c) + 4]
  {
    TableBlocks();
    FilterBlocks(PredefinedMessages, c);
  }

  /** Hence every tab shows four messages, all of its own category. */
  lemma FilteredMessagesShape(c: Category)
    ensures |FilteredMessages(c)| == 4
    ensures forall i :: 0 <= i < 4 ==> FilteredMessages(c)[i].category == c
  {
    TableBlocks();
    FilteredMessagesExact(c);
    BlockShape(PredefinedMessages, c, FilteredMessages(c));
  }

  /** A category's block in a three-block table has four messages, all of
      that category. */
  lemma BlockShape(t: seq<Message>, c: Category, block: seq<Message>)
    requires ThreeBlocks(t)
    requires block == t[4 * CategoryIndex(c)..4 * CategoryIndex(c) + 4]
    ensures |block| == 4
    ensures forall i :: 0 <= i < 4 ==> block[i].category == c
  {
  }

  /** Position of a category's block in the table. */
  function CategoryIndex(c: Category): nat
  {
    match c
    case Now => 0
    case Later => 1
    case Social => 2
  }

  /** The send guard: `message.trim()` is truthy. */
  predicate Sendable(message: string)
  {
    Trim(message) != []
  }

  /** The guard passes exactly when the message has a non-whitespace
      character. */
  lemma SendableIffNotBlank(message: string)
    ensures Sendable(message) <==> exists i :: 0 <= i < |message| && !IsWhitespace(message[i])
  {
    TrimEmptyIffBlank(message);
  }

  /** Pressing a quick message always sends it: no table text is blank. */
  lemma PredefinedMessagesSendable(i: int)
    requires 0 <= i < |PredefinedMessages|
    ensures Sendable(PredefinedMessages[i].text)
  {
    var text := PredefinedMessages[i].text;
    assert !IsWhitespace(text[0]);
    SendableIffNotBlank(text);
  }

  class Composer {
    var selectedCategory: Category
    var customMessage: string

    /** A freshly opened composer shows the "now" tab and an empty draft. */
    constructor ()
      ensures selectedCategory == Now && customMessage == ""
    {
      selectedCategory := Now;
      customMessage := "";
    }

    function Filtered(): (ms: seq<Message>)
      reads this
      ensures |ms| == 4
      ensures forall i :: 0 <= i < |ms| ==> ms[i].category == selectedCategory
    {
      FilteredMessagesShape(selectedCategory);
      FilteredMessages(selectedCategory)
    }

    /** The send button is disabled exactly when the draft is blank. */
    predicate SendDisabled()
      reads this
    {
      Trim(customMessage) == []
    }

    /** A category tab was pressed. */
    method SelectCategory(c: Category)
      modifies this
      ensures selectedCategory == c && customMessage == old(customMessage)
    {
      selectedCategory := c;
    }

    /** The draft input changed. */
    method ChangeDraft(text: string)
      modifies this
      ensures customMessage == text && selectedCategory == old(selectedCategory)
    {
      customMessage := text;
    }

    /** `handleSendMessage`: `sent` is the argument `onSend` receives, if it is
        called. A blank message is dropped and nothing changes; otherwise the
        message goes out untrimmed and the draft is cleared. */
    method HandleSendMessage(message: string) returns (sent: Option<string>)
      modifies this
      ensures sent == (if Sendable(message) then Some(message) else None)
      ensures customMessage == (if Sendable(message) then "" else old(customMessage))
      ensures selectedCategory == old(selectedCategory)
    {
      if Trim(message) != [] {
        sent := Some(message);
        customMessage := "";
      } else {
        sent := None;
      }
    }
  }

  /** The disabled send button and the send guard agree: the button is
      enabled exactly when pressing it would send the draft. */
  lemma SendButtonMatchesGuard(c: Composer)
    ensures c.SendDisabled() <==> !Sendable(c.customMessage)
  {
  }

  datatype Option<T> = None | Some(value: T)
}
