/** The contact-list entry for the project's crowdfunding chat: building it
    from a stored announcement, its identity, and how it fills its row. */
module Crowdfunding {
  import opened Basics

  /** A stored crowdfunding announcement in both of its languages. */
  datatype CrowdfundingMessage = CrowdfundingMessage(messageRu: string, messageEn: string)

  /** The list entry; `id` is a random UUID drawn when the entry is made. */
  datatype CrowdfundingChatVO = CrowdfundingChatVO(
    id: string,
    time: Option<int>,
    unreadCount: int,
    messageText: string,
    accountColorIndicator: int,
    accountColorIndicatorBack: int
  )

  /** The argument of equals: null, another entry of this kind, or any
      other object. */
  datatype JavaObject = Null | Entry(vo: CrowdfundingChatVO) | OtherObject

  /** A text view's content: a literal string, or the string resource
      describing the project's chat. */
  datatype Text = Literal(s: string) | ChatDescription

  /** The row's views after binding. */
  datatype RowViews = RowViews(
    time: Option<int>,            // the value handed to the roster time formatter
    unreadVisibility: Visibility,
    unreadText: string,
    messageText: Text,
    indicatorColor: int,
    indicatorBackColor: int
  )

  /** Builds an entry from an announcement: the Russian text exactly when the
      locale's language is "ru", no time, the given unread count, and the
      painter's default colours. */
  function Convert(message: CrowdfundingMessage, unreadCount: int, language: string,
                   uuid: string, defaultMainColor: int, defaultIndicatorBackColor: int)
    : (vo: CrowdfundingChatVO)
    ensures language == "ru" ==> vo.messageText == message.messageRu
    ensures language != "ru" ==> vo.messageText == message.messageEn
    ensures vo.time == None && vo.unreadCount == unreadCount && vo.id == uuid
    ensures vo.accountColorIndicator == defaultMainColor
    ensures vo.accountColorIndicatorBack == defaultIndicatorBackColor
  {
    var text := if language == "ru" then message.messageRu else message.messageEn;
    CrowdfundingChatVO(uuid, None, unreadCount, text, defaultMainColor, defaultIndicatorBackColor)
  }

  /** Entries are equal exactly when the other object is an entry with the
      same id; text, time, count and colours play no part. */
  function Equals(self: CrowdfundingChatVO, o: JavaObject): (r: bool)
    ensures r <==> o.Entry? && o.vo.id == self.id
  {
    match o
    case Entry(other) => self.id == other.id
    case _ => false
  }

  /** Equality between entries is an equivalence relation. */
  lemma EqualsIsEquivalence(a: CrowdfundingChatVO, b: CrowdfundingChatVO, c: CrowdfundingChatVO)
    ensures Equals(a, Entry(a))
    ensures Equals(a, Entry(b)) ==> Equals(b, Entry(a))
    ensures Equals(a, Entry(b)) && Equals(b, Entry(c)) ==> Equals(a, Entry(c))
  {
  }

  /** Two conversions of the same announcement are distinct entries unless
      they drew the same UUID. */
  lemma ConvertedEntriesEqualIffSameUuid(message: CrowdfundingMessage, count: int, language: string,
                                         u1: string, u2: string, main: int, back: int)
    ensures u1 == u2 <==>
      Equals(Convert(message, count, language, u1, main, back),
             Entry(Convert(message, count, language, u2, main, back)))
  {
  }

  /** The decimal digit character for 0..9. */
  function DigitChar(d: nat): char
    requires d < 10
  {
    "0123456789"[d]
  }

  /** String.valueOf for a non-negative int: its decimal digits, no leading zero. */
  function DecimalString(n: nat): (s: string)
    ensures |s| > 0
    ensures forall i :: 0 <= i < |s| ==> '0' <= s[i] <= '9'
    ensures n > 0 ==> s[0] != '0'
  {
    if n < 10 then [DigitChar(n)] else DecimalString(n / 10) + [DigitChar(n % 10)]
  }

  /** The number a string of decimal digits denotes. */
  function DecimalValue(s: string): nat
    requires forall i :: 0 <= i < |s| ==> '0' <= s[i] <= '9'
  {
    if s == [] then 0
    else DecimalValue(s[..|s| - 1]) * 10 + (s[|s| - 1] as int - '0' as int)
  }

  /** Reading the decimal string back gives the number. */
  lemma {:induction false} DecimalRoundTrip(n: nat)
    ensures DecimalValue(DecimalString(n)) == n
  {
    var s := DecimalString(n);
    if n >= 10 {
      DecimalRoundTrip(n / 10);
      assert s[..|s| - 1] == DecimalString(n / 10);
    }
  }

  /** Fills a row from an entry, over the holder's previous views: the
      badge shows the count exactly when it is positive and is otherwise
      INVISIBLE with its old text; an empty text falls back to the chat
      description. */
  function BindViewHolder(vo: CrowdfundingChatVO, holder: RowViews): (h: RowViews)
    ensures h.time == vo.time
    ensures h.unreadVisibility == Visible <==> vo.unreadCount > 0
    ensures h.unreadVisibility != Gone
    ensures vo.unreadCount > 0 ==>
      h.unreadText == DecimalString(vo.unreadCount) && DecimalValue(h.unreadText) == vo.unreadCount
    ensures vo.unreadCount <= 0 ==> h.unreadText == holder.unreadText
    ensures h.messageText == ChatDescription <==> vo.messageText == []
    ensures vo.messageText != [] ==> h.messageText == Literal(vo.messageText)
    ensures h.indicatorColor == vo.accountColorIndicator
    ensures h.indicatorBackColor == vo.accountColorIndicatorBack
  {
    var shown := vo.unreadCount > 0;
    var count: nat := if shown then vo.unreadCount else 0;
    DecimalRoundTrip(count);
    RowViews(
      vo.time,
      if shown then Visible else Invisible,
      if shown then DecimalString(count) else holder.unreadText,
      if vo.messageText == [] then ChatDescription else Literal(vo.messageText),
      vo.accountColorIndicator,
      vo.accountColorIndicatorBack)
  }
}
