/**
 * A card of the recent-customers strip: the last message, cut to 32
 * characters, and the link that opens the chat page on that thread.
 */
module RecentCustomers {
  import opened Optional
  import Strings
  import Chat

  const PreviewLength: nat := 32

  /**
   * The preview line: nothing for a missing or empty last message, the message
   * itself up to 32 characters, otherwise its first 32 characters and "...".
   */
  function Preview(lastMessage: Option<string>): (r: Option<string>)
    ensures r.None? <==> lastMessage.None? || lastMessage.value == ""
    ensures r.Some? ==> |r.value| <= PreviewLength + 3
    ensures r.Some? && |lastMessage.value| <= PreviewLength ==> r.value == lastMessage.value
    ensures r.Some? && |lastMessage.value| > PreviewLength ==>
      |r.value| == PreviewLength + 3 && r.value == lastMessage.value[..PreviewLength] + "..."
  {
    match lastMessage
    case None => None
    case Some(m) =>
      if m == "" then None
      else if |m| > PreviewLength then Some(m[..PreviewLength] + "...")
      else Some(m)
  }

  /** The preview starts with the message, as far as it shows it. */
  lemma PreviewIsPrefix(m: string)
    requires m != ""
    ensures var r := Preview(Some(m)).value;
      var k := if |m| <= PreviewLength then |m| else PreviewLength;
      k <= |r| && r[..k] == m[..k]
  {
    var r := Preview(Some(m)).value;
    if |m| > PreviewLength {
      assert r[..PreviewLength] == (m[..PreviewLength] + "...")[..PreviewLength];
    }
  }

  /** Cutting a preview again changes nothing. */
  lemma PreviewIdempotent(m: string)
    requires m != ""
    ensures Preview(Preview(Some(m))) == Preview(Some(m))
  {
  }

  /** The query string of a card's link. */
  function ChatQuery(textId: nat): string {
    "?thread=" + Strings.DecimalString(textId)
  }

  /** The card's link, `/chat?thread=<textId>`. */
  function ChatLink(textId: nat): (url: string)
    ensures url == "/chat" + ChatQuery(textId)
  {
    "/chat" + ChatQuery(textId)
  }

  /** The chat page reads back from the link's query string exactly the card's thread. */
  lemma ChatQueryNamesThread(textId: nat)
    ensures Chat.ThreadParam(ChatQuery(textId)) == Some(Strings.DecimalString(textId))
    ensures Chat.NumberOf(Strings.DecimalString(textId)) == Chat.Thread(textId)
  {
    var digits := Strings.DecimalString(textId);
    var q := ChatQuery(textId);
    var pairs := "thread=" + digits;
    assert q[1..] == pairs;
    assert '&' !in pairs by {
      forall i | 0 <= i < |pairs| ensures pairs[i] != '&' {
        if i >= 7 {
          assert pairs[i] == digits[i - 7];
        }
      }
    }
    Strings.SplitNoSep(pairs, '&');
    assert Strings.StartsWith(pairs, "thread=");
    assert pairs[7..] == digits;
  }

  /** Following a card's link makes its thread the active chat. */
  method FollowLink(page: Chat.ChatPage, textId: nat)
    modifies page
    ensures page.activeChat == Chat.Thread(textId)
  {
    ChatQueryNamesThread(textId);
    page.ThreadFromQuery(ChatQuery(textId));
  }
}
