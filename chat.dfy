/**
 * The chat page: the "time ago" captions, the thread list with its search box,
 * and the message pane fed by the messages fetch, the socket and the send box.
 */
module Chat {
  import opened Optional
  import Strings
  import Seqs

  // ---------------------------------------------------------------------------
  // timeAgo
  // ---------------------------------------------------------------------------

  /** The caption `timeAgo` produces, by bucket. */
  datatype Age =
    | NoDate              // ""
    | JustNow             // "just now"
    | Minutes(n: int)     // "<n>m ago"
    | Hours(n: int)       // "<n>h ago"
    | Days(n: int)        // "<n>d ago"
    | OnDate              // the date itself, in the browser's locale
  {
    /** Buckets in the order time moves through them. */
    function Rank(): nat {
      match this
      case NoDate => 0
      case JustNow => 1
      case Minutes(_) => 2
      case Hours(_) => 3
      case Days(_) => 4
      case OnDate => 5
    }
  }

  /**
   * `Math.floor((now - then) / 1000)` for the message time `sent` and the
   * clock `now`, both in milliseconds. Dafny's `/` by a positive divisor rounds down, as `Math.floor` does, also for negative
   * differences (a clock running behind the server).
   */
  function ElapsedSeconds(sent: int, now: int): int {
    (now - sent) / 1000
  }

  /** `timeAgo(date)`: a missing date gives "", otherwise the elapsed-time bucket. */
  function TimeAgo(date: Option<int>, now: int): (a: Age)
    ensures a == NoDate <==> date.None?
    ensures date.Some? ==> (a == JustNow <==> ElapsedSeconds(date.value, now) < 60)
    ensures date.Some? ==> (a.Minutes? <==> 60 <= ElapsedSeconds(date.value, now) < 3600)
    ensures date.Some? ==> (a.Hours? <==> 3600 <= ElapsedSeconds(date.value, now) < 86400)
    ensures date.Some? ==> (a.Days? <==> 86400 <= ElapsedSeconds(date.value, now) < 604800)
    ensures date.Some? ==> (a == OnDate <==> ElapsedSeconds(date.value, now) >= 604800)
    ensures a.Minutes? ==> a.n == ElapsedSeconds(date.value, now) / 60 && 1 <= a.n < 60
    ensures a.Hours? ==> a.n == ElapsedSeconds(date.value, now) / 3600 && 1 <= a.n < 24
    ensures a.Days? ==> a.n == ElapsedSeconds(date.value, now) / 86400 && 1 <= a.n < 7
  {
    if date.None? then NoDate
    else
      var diff := ElapsedSeconds(date.value, now);
      if diff < 60 then JustNow
      else if diff < 3600 then Minutes(diff / 60)
      else if diff < 86400 then Hours(diff / 3600)
      else if diff < 604800 then Days(diff / 86400)
      else OnDate
  }

  /** As the clock moves on, a caption never goes back to an earlier bucket or a smaller count. */
  lemma TimeAgoAdvances(date: int, now1: int, now2: int)
    requires now1 <= now2
    ensures TimeAgo(Some(date), now1).Rank() <= TimeAgo(Some(date), now2).Rank()
    ensures var a1, a2 := TimeAgo(Some(date), now1), TimeAgo(Some(date), now2);
      (a1.Minutes? && a2.Minutes?) || (a1.Hours? && a2.Hours?) || (a1.Days? && a2.Days?) ==> a1.n <= a2.n
  {
    var d1, d2 := ElapsedSeconds(date, now1), ElapsedSeconds(date, now2);
    assert d1 <= d2 by {
      DivMonotone(now1 - date, now2 - date, 1000);
    }
    DivMonotone(d1, d2, 60);
    DivMonotone(d1, d2, 3600);
    DivMonotone(d1, d2, 86400);
  }

  /** Rounding-down division by a positive number is monotone. */
  lemma DivMonotone(x: int, y: int, k: int)
    requires x <= y && k > 0
    ensures x / k <= y / k
  {
    if x / k > y / k {
      assert k * (x / k) >= k * (y / k + 1) by {
        MulMonotone(k, y / k + 1, x / k);
      }
    }
  }

  lemma MulMonotone(k: int, a: int, b: int)
    requires k > 0 && a <= b
    ensures k * a <= k * b
  {
  }

  /** The caption as text; `localeDate` is `then.toLocaleDateString()`, which the browser formats. */
  function Caption(a: Age, localeDate: string): (s: string)
    ensures a == NoDate ==> s == ""
    ensures a == JustNow ==> s == "just now"
    ensures a.Minutes? || a.Hours? || a.Days? ==> |s| > 5 && s[|s| - 4..] == " ago"
    ensures a.Minutes? ==> SaysAgo(s, a.n, 'm')
    ensures a.Hours? ==> SaysAgo(s, a.n, 'h')
    ensures a.Days? ==> SaysAgo(s, a.n, 'd')
  {
    match a
    case NoDate => ""
    case JustNow => "just now"
    case Minutes(n) => Ago(n, 'm')
    case Hours(n) => Ago(n, 'h')
    case Days(n) => Ago(n, 'd')
    case OnDate => localeDate
  }

  /** True iff `s` reads as the count `n` in decimal (a leading "-" when negative), the unit letter `u` and " ago". */
  predicate SaysAgo(s: string, n: int, u: char) {
    && |s| > 5 && s[|s| - 5..] == [u] + " ago"
    && if n >= 0 then Strings.ParseDecimal(s[..|s| - 5]) == Some(n)
       else s[0] == '-' && Strings.ParseDecimal(s[1..|s| - 5]) == Some(-n)
  }

  function Ago(n: int, u: char): (s: string)
    ensures SaysAgo(s, n, u)
  {
    var digits := Strings.DecimalString(if n >= 0 then n else -n);
    Strings.ParseDecimalString(if n >= 0 then n else -n);
    var s := (if n >= 0 then digits else "-" + digits) + [u] + " ago";
    assert s[..|s| - 5] == (if n >= 0 then digits else "-" + digits);
    assert n < 0 ==> s[1..|s| - 5] == digits;
    s
  }

  // ---------------------------------------------------------------------------
  // Page state
  // ---------------------------------------------------------------------------

  /**
   * The value held in `activeChat`: `null`, a thread id, or `NaN` (what
   * `Number(...)` gives for a `thread` query parameter that is not a number).
   */
  datatype Active = NoChat | Thread(id: int) | NotANumber

  /**
   * JavaScript `a === b` between a message's `threadId` and `activeChat`:
   * only two equal numbers are identical; `NaN` equals nothing, and a message
   * without a `threadId` (undefined, written `NoChat` here) never equals `null`.
   */
  predicate SameThread(a: Active, b: Active) {
    a.Thread? && a == b
  }

  /** One entry of the thread list, as `/api/chat-thread` sends it. */
  datatype ThreadItem = ThreadItem(textId: int, pName: string, lastMessage: Option<string>, openState: Option<string>)

  /** A message in the pane: from the messages fetch (no `threadId`), the socket, or the send box. */
  datatype ChatMessage = ChatMessage(id: int, text: string, sender: string, threadId: Active)

  /** The body of the persisting POST: `/api/messages/<activeChat>` with `{ text }`. */
  datatype Post = Post(threadId: Active, text: string)

  /** `{ ...thread, opened: "yes" }` for the selected thread, the thread itself otherwise. */
  function MarkOne(t: ThreadItem, textId: int): ThreadItem {
    if t.textId == textId then t.(openState := Some("yes")) else t
  }

  /** The thread-list update after a successful messages fetch: only threads with that `textId` become opened. */
  function MarkThreadOpened(threads: seq<ThreadItem>, textId: int): (r: seq<ThreadItem>)
    ensures |r| == |threads|
    ensures forall i :: 0 <= i < |r| && threads[i].textId == textId ==> r[i] == threads[i].(openState := Some("yes"))
    ensures forall i :: 0 <= i < |r| && threads[i].textId != textId ==> r[i] == threads[i]
  {
    if threads == [] then [] else [MarkOne(threads[0], textId)] + MarkThreadOpened(threads[1..], textId)
  }

  /** Marking twice is marking once. */
  lemma MarkThreadOpenedIdempotent(threads: seq<ThreadItem>, textId: int)
    ensures MarkThreadOpened(MarkThreadOpened(threads, textId), textId) == MarkThreadOpened(threads, textId)
  {
  }

  /** The search box's test: the lowercased name contains the lowercased query. */
  predicate SearchMatches(t: ThreadItem, search: string) {
    Strings.Contains(Strings.ToLower(t.pName), Strings.ToLower(search))
  }

  /** The threads listed under the search box, in list order. */
  function VisibleThreads(threads: seq<ThreadItem>, search: string): (r: seq<ThreadItem>)
    ensures Seqs.IsSubseq(r, threads)
    ensures forall t :: t in r <==> t in threads && SearchMatches(t, search)
  {
    Seqs.FilterIsSubseq(threads, t => SearchMatches(t, search));
    Seqs.Filter(threads, t => SearchMatches(t, search))
  }

  /** Opening a thread changes no name, so it never moves a thread into or out of the search results. */
  lemma {:induction false} MarkOpenedKeepsSearch(threads: seq<ThreadItem>, textId: int, search: string)
    ensures VisibleThreads(MarkThreadOpened(threads, textId), search) == MarkThreadOpened(VisibleThreads(threads, search), textId)
    decreases |threads|
  {
    if threads != [] {
      var p := (t: ThreadItem) => SearchMatches(t, search);
      var marked := MarkThreadOpened(threads, textId);
      assert marked[0] == MarkOne(threads[0], textId) && marked[1..] == MarkThreadOpened(threads[1..], textId);
      assert p(marked[0]) == p(threads[0]);
      MarkOpenedKeepsSearch(threads[1..], textId, search);
      if p(threads[0]) {
        assert Seqs.Filter(threads, p) == [threads[0]] + Seqs.Filter(threads[1..], p);
        var f := [threads[0]] + Seqs.Filter(threads[1..], p);
        assert f[1..] == Seqs.Filter(threads[1..], p);
      }
    }
  }

  /** What the thread parameter of the page's query string holds: the value of the first `thread=` pair. */
  function ThreadParam(query: string): Option<string> {
    var pairs := if query != [] && query[0] == '?' then query[1..] else query;
    FirstValue(Strings.Split(pairs, '&'), "thread=")
  }

  function FirstValue(pairs: seq<string>, key: string): (r: Option<string>)
    ensures r.Some? <==> exists i :: 0 <= i < |pairs| && Strings.StartsWith(pairs[i], key)
    ensures r.Some? ==> exists i :: 0 <= i < |pairs| && Strings.StartsWith(pairs[i], key) && r.value == pairs[i][|key|..]
                                    && forall j :: 0 <= j < i ==> !Strings.StartsWith(pairs[j], key)
  {
    if pairs == [] then None
    else if Strings.StartsWith(pairs[0], key) then Some(pairs[0][|key|..])
    else
      var r := FirstValue(pairs[1..], key);
      assert forall i :: 1 <= i < |pairs| ==> pairs[i] == pairs[1..][i - 1];
      r
  }

  /** `Number(thread)` for a parameter of plain decimal digits; anything else is `NaN`. */
  function NumberOf(s: string): (a: Active)
    ensures a != NoChat
    ensures forall n: nat :: s == Strings.DecimalString(n) ==> a == Thread(n)
  {
    forall n: nat | s == Strings.DecimalString(n) ensures Strings.ParseDecimal(s) == Some(n) {
      Strings.ParseDecimalString(n);
    }
    match Strings.ParseDecimal(s)
    case Some(n) => Thread(n)
    case None => NotANumber
  }

  class ChatPage {
    var activeChat: Active
    var input: string
    var showEmoji: bool
    var chatThreads: seq<ThreadItem>
    var search: string
    var messages: seq<ChatMessage>

    constructor ()
      ensures activeChat == NoChat && input == "" && !showEmoji
      ensures chatThreads == [] && search == "" && messages == []
    {
      activeChat, input, showEmoji := NoChat, "", false;
      chatThreads, search, messages := [], "", [];
    }

    /** The thread fetch: the reply, or an empty list when it fails. */
    method LoadThreads(reply: Option<seq<ThreadItem>>)
      modifies this`chatThreads
      ensures chatThreads == reply.GetOr([])
    {
      chatThreads := reply.GetOr([]);
    }

    /** The messages effect: nothing with no chat active; otherwise the reply, or nothing when it fails. */
    method LoadMessages(reply: Option<seq<ChatMessage>>)
      modifies this`messages
      ensures activeChat == NoChat ==> messages == []
      ensures activeChat != NoChat ==> messages == reply.GetOr([])
    {
      if activeChat == NoChat {
        messages := [];
      } else {
        messages := reply.GetOr([]);
      }
    }

    /** `receive_message`: the socket's message joins the pane only when it is for the active thread. */
    method ReceiveMessage(msg: ChatMessage)
      modifies this`messages
      ensures SameThread(msg.threadId, activeChat) ==> messages == old(messages) + [msg]
      ensures !SameThread(msg.threadId, activeChat) ==> messages == old(messages)
    {
      if SameThread(msg.threadId, activeChat) {
        messages := messages + [msg];
      }
    }

    /**
     * `handleSendMessage` at time `now` (ms): with non-blank input and a chat
     * active, one message from "user" for the active thread joins the pane, the
     * input is cleared, the emoji picker closes, and the text is posted.
     */
    method SendMessage(now: int) returns (sent: Option<Post>)
      modifies this`messages, this`input, this`showEmoji
      ensures var fires := !Strings.IsBlank(old(input)) && activeChat != NoChat;
        && (fires ==> && messages == old(messages) + [ChatMessage(now, old(input), "user", activeChat)]
                      && input == "" && !showEmoji
                      && sent == Some(Post(activeChat, old(input))))
        && (!fires ==> messages == old(messages) && input == old(input) && showEmoji == old(showEmoji) && sent == None)
      ensures sent.Some? ==> !Strings.IsBlank(sent.value.text)
    {
      Strings.TrimEmptyIffBlank(input);
      if Strings.Trim(input) != "" && activeChat != NoChat {
        var tempMsg := ChatMessage(now, input, "user", activeChat);
        messages := messages + [tempMsg];
        sent := Some(Post(activeChat, input));
        input := "";
        showEmoji := false;
      } else {
        sent := None;
      }
    }

    /** `handleChatSelect`: the thread becomes active; it is marked opened once its messages fetch succeeds. */
    method SelectChat(textId: int, fetched: bool)
      modifies this`activeChat, this`chatThreads
      ensures activeChat == Thread(textId)
      ensures chatThreads == if fetched then MarkThreadOpened(old(chatThreads), textId) else old(chatThreads)
    {
      activeChat := Thread(textId);
      if fetched {
        chatThreads := MarkThreadOpened(chatThreads, textId);
      }
    }

    /** The query-string effect: a non-empty `thread` parameter becomes the active chat. */
    method ThreadFromQuery(query: string)
      modifies this`activeChat
      ensures var p := ThreadParam(query);
        activeChat == if p.Some? && p.value != "" then NumberOf(p.value) else old(activeChat)
    {
      var thread := ThreadParam(query);
      if thread.Some? && thread.value != "" {
        activeChat := NumberOf(thread.value);
      }
    }

    /** The search box's `onChange`. */
    method HandleSearch(value: string)
      modifies this`search
      ensures search == value
    {
      search := value;
    }
  }

  /** After a successful select, exactly the threads with that id are opened and the rest are as they were. */
  lemma SelectOpensOnlyThatThread(threads: seq<ThreadItem>, textId: int, i: int)
    requires 0 <= i < |threads|
    ensures MarkThreadOpened(threads, textId)[i].openState == Some("yes") <==> threads[i].textId == textId || threads[i].openState == Some("yes")
    ensures MarkThreadOpened(threads, textId)[i].(openState := threads[i].openState) == threads[i]
  {
  }
}
