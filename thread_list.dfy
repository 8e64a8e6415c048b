/** The decisions the ThreadList component makes while rendering a channel:
    which thread cards continue the author group above them, when scrolling
    asks the store for older threads and with which cursor, and how the
    channel's type selects its icon, editor placeholder and titles. */
module ThreadList {

  import opened Wrappers
  import Decimal

  // ---------------------------------------------------------------------------
  // Threads and their cards
  // ---------------------------------------------------------------------------

  datatype User = User(id: int)

  /** A thread as the store delivers it; `createdAt` is its creation time. */
  datatype Thread = Thread(id: int, user: User, replyCount: int, createdAt: int)

  /** One `MessageCard` of type "THREAD": the thread shown, whether it
      continues the group above it, and the React key it is rendered under. */
  datatype MessageCard = MessageCard(data: Thread, continuous: bool, key: int)

  /** Two adjacent threads form one author group: same author and neither
      has replies. */
  predicate Continues(prev: Thread, next: Thread) {
    prev.user.id == next.user.id && prev.replyCount == 0 && next.replyCount == 0
  }

  /** `prevThread`: the thread rendered just above position `index`, if any. */
  function PrevThread(arr: seq<Thread>, index: nat): Option<Thread>
    requires index < |arr|
  {
    if index > 0 then Some(arr[index - 1]) else None
  }

  /** The `continuous` flag the map callback computes for `arr[index]`. */
  predicate IsContinuous(arr: seq<Thread>, index: nat)
    requires index < |arr|
  {
    var prevThread := PrevThread(arr, index);
    var sameUser := prevThread.Some? && prevThread.value.user.id == arr[index].user.id;
    var hasReply := arr[index].replyCount != 0;
    var prevHasReply := prevThread.Some? && prevThread.value.replyCount != 0;
    sameUser && !hasReply && !prevHasReply
  }

  /** `threads.map(...)`: one card per thread, in order, keyed by the thread's
      id, continuous exactly when it forms an author group with its
      predecessor. */
  function RenderThreads(threads: seq<Thread>): (cards: seq<MessageCard>)
    ensures |cards| == |threads|
    ensures forall i :: 0 <= i < |threads| ==>
      cards[i].data == threads[i] && cards[i].key == threads[i].id
    ensures forall i :: 0 <= i < |threads| ==>
      (cards[i].continuous <==> i > 0 && Continues(threads[i - 1], threads[i]))
  {
    seq(|threads|, i requires 0 <= i < |threads| =>
      MessageCard(threads[i], IsContinuous(threads, i), threads[i].id))
  }

  /** The first card has nothing above it and always shows its author. */
  lemma FirstNeverContinuous(threads: seq<Thread>)
    requires threads != []
    ensures !RenderThreads(threads)[0].continuous
  {
  }

  /** A thread with replies always starts a new group. */
  lemma RepliedNeverContinuous(threads: seq<Thread>, i: nat)
    requires i < |threads| && threads[i].replyCount != 0
    ensures !RenderThreads(threads)[i].continuous
  {
  }

  /** The thread after one with replies always starts a new group. */
  lemma AfterRepliedNeverContinuous(threads: seq<Thread>, i: nat)
    requires 0 < i < |threads| && threads[i - 1].replyCount != 0
    ensures !RenderThreads(threads)[i].continuous
  {
  }

  /** Card `i` depends only on threads `i - 1` and `i`: lists that agree on
      those two positions give it the same flag, whatever else differs. */
  lemma ContinuityIsLocal(a: seq<Thread>, b: seq<Thread>, i: nat)
    requires i < |a| && i < |b| && a[i] == b[i]
    requires i > 0 ==> a[i - 1] == b[i - 1]
    ensures RenderThreads(a)[i].continuous == RenderThreads(b)[i].continuous
  {
  }

  /** An independent definition of the flags, walking the list pair by pair. */
  function PairFlags(prev: Thread, rest: seq<Thread>): seq<bool>
    decreases |rest|
  {
    if rest == [] then [] else [Continues(prev, rest[0])] + PairFlags(rest[0], rest[1..])
  }

  function PairwiseFlags(threads: seq<Thread>): seq<bool> {
    if threads == [] then [] else [false] + PairFlags(threads[0], threads[1..])
  }

  /** The continuity flags of a list of cards, in order. */
  function Flags(cards: seq<MessageCard>): seq<bool> {
    seq(|cards|, i requires 0 <= i < |cards| => cards[i].continuous)
  }

  lemma {:induction false} PairFlagsAgree(threads: seq<Thread>, k: nat)
    requires 0 < k <= |threads|
    ensures PairFlags(threads[k - 1], threads[k..]) == Flags(RenderThreads(threads))[k..]
    decreases |threads| - k
  {
    if k < |threads| {
      PairFlagsAgree(threads, k + 1);
      assert threads[k..][1..] == threads[k + 1..];
    }
  }

  /** The component's flags are the pairwise grouping of the list. */
  lemma ContinuityIsPairwise(threads: seq<Thread>)
    ensures Flags(RenderThreads(threads)) == PairwiseFlags(threads)
  {
    if threads != [] {
      PairFlagsAgree(threads, 1);
    }
  }

  /** Rendering a list made of two pieces renders each piece on its own,
      except the first card of the second piece, which now has a predecessor:
      a new thread appended at the bottom, or a page of older threads put on
      top, changes no other card. */
  lemma RenderConcat(a: seq<Thread>, b: seq<Thread>)
    requires b != []
    ensures RenderThreads(a + b) ==
      RenderThreads(a)
      + [MessageCard(b[0], a != [] && Continues(a[|a| - 1], b[0]), b[0].id)]
      + RenderThreads(b)[1..]
  {
  }

  /** The card at the head of the author group that card `k` belongs to. */
  function GroupHead(threads: seq<Thread>, k: nat): (j: nat)
    requires k < |threads|
    ensures j <= k && !RenderThreads(threads)[j].continuous
    ensures forall m :: j < m <= k ==> RenderThreads(threads)[m].continuous
    ensures forall m :: j <= m <= k ==> threads[m].user.id == threads[k].user.id
    ensures j < k ==> forall m :: j <= m <= k ==> threads[m].replyCount == 0
  {
    if k == 0 || !RenderThreads(threads)[k].continuous then k else GroupHead(threads, k - 1)
  }

  // ---------------------------------------------------------------------------
  // Loading older threads when scrolled to the top
  // ---------------------------------------------------------------------------

  /** Scroll offset, in pixels, at or below which older threads are requested. */
  const ScrollTopThreshold: int := 150

  /** The payload of `getThreads.request`: which channel, and the id of the
      thread before which older threads are wanted. */
  datatype GetThreadsRequest = GetThreadsRequest(channelId: int, lastThreadId: int)

  /** What one scroll event leads to: nothing, a dispatched request, or the
      TypeError thrown by reading the id of a first thread that is missing,
      after which nothing is dispatched. */
  datatype ScrollOutcome = NoRequest | Dispatch(request: GetThreadsRequest) | MissingFirstThread

  /** `handleScrollTop`. `channelId` is the channel prop's id coerced to a
      number (`+channelInfo.id`), not the router's `channelId` parameter, and
      `threadList` is the store's list, not the rendered `threads`. */
  function HandleScrollTop(scrollTop: int, channelId: int, threadList: seq<Thread>)
    : (r: ScrollOutcome)
    ensures r.NoRequest? <==> scrollTop > ScrollTopThreshold
    ensures r.Dispatch? <==> scrollTop <= ScrollTopThreshold && threadList != []
    ensures r.MissingFirstThread? <==> scrollTop <= ScrollTopThreshold && threadList == []
    ensures r.Dispatch? ==>
      r.request.channelId == channelId && r.request.lastThreadId == threadList[0].id
  {
    if scrollTop <= ScrollTopThreshold then
      if threadList != [] then Dispatch(GetThreadsRequest(channelId, threadList[0].id))
      else MissingFirstThread
    else
      NoRequest
  }

  /** Threads kept in creation order, as the store holds a channel's threads. */
  predicate InCreationOrder(threadList: seq<Thread>) {
    forall i :: 0 < i < |threadList| ==> threadList[i - 1].createdAt <= threadList[i].createdAt
  }

  lemma {:induction false} HeadIsOldest(threadList: seq<Thread>, k: nat)
    requires InCreationOrder(threadList) && k < |threadList|
    ensures threadList[0].createdAt <= threadList[k].createdAt
  {
    if k > 0 {
      HeadIsOldest(threadList, k - 1);
    }
  }

  /** With the threads in creation order, the cursor of the request is the
      oldest thread loaded. */
  lemma CursorIsOldest(scrollTop: int, channelId: int, threadList: seq<Thread>)
    requires scrollTop <= ScrollTopThreshold && threadList != []
    requires InCreationOrder(threadList)
    ensures HandleScrollTop(scrollTop, channelId, threadList)
      == Dispatch(GetThreadsRequest(channelId, threadList[0].id))
    ensures forall u :: u in threadList ==> threadList[0].createdAt <= u.createdAt
  {
    var t := threadList[0];
    forall u | u in threadList ensures t.createdAt <= u.createdAt {
      var k :| 0 <= k < |threadList| && threadList[k] == u;
      HeadIsOldest(threadList, k);
    }
  }

  // ---------------------------------------------------------------------------
  // Presentation selected by the channel's type
  // ---------------------------------------------------------------------------

  /** The channel the list belongs to; `kind` is its `type` ("DM", "PUBLIC",
      or another type such as "PRIVATE"), `memberMax3` a preview of at most
      three members. */
  datatype ChannelInfo = ChannelInfo(
    id: int, kind: string, name: string, memberMax3: seq<User>, memberCount: nat)

  datatype Icon = MessageIcon | HashtagIcon | LockIcon

  /** `channelIcon`: one icon per type, and every type gets one. */
  function ChannelIcon(kind: string): (icon: Icon)
    ensures icon == MessageIcon <==> kind == "DM"
    ensures icon == HashtagIcon <==> kind == "PUBLIC"
    ensures icon == LockIcon <==> kind != "DM" && kind != "PUBLIC"
  {
    if kind == "DM" then MessageIcon else if kind == "PUBLIC" then HashtagIcon else LockIcon
  }

  /** `messageEditorPlaceHolder`: for a direct message the title that
      `dmTitle` (the client's `getDMChannelTitle`) gives the member preview
      and count, otherwise "#" in front of the channel's name. */
  function MessageEditorPlaceHolder(c: ChannelInfo, dmTitle: (seq<User>, int) -> string)
    : (p: string)
    ensures c.kind == "DM" ==> p == dmTitle(c.memberMax3, c.memberCount)
    ensures c.kind != "DM" ==> |p| == |c.name| + 1 && p[0] == '#' && p[1..] == c.name
  {
    if c.kind == "DM" then dmTitle(c.memberMax3, c.memberCount) else "#" + c.name
  }

  const EditorPrefix: string := "Send a message to "

  /** The `placeHolder` handed to the message editor. */
  function EditorPlaceHolder(c: ChannelInfo, dmTitle: (seq<User>, int) -> string)
    : (p: string)
    ensures |p| == |EditorPrefix| + |MessageEditorPlaceHolder(c, dmTitle)|
    ensures p[..|EditorPrefix|] == EditorPrefix
    ensures p[|EditorPrefix|..] == MessageEditorPlaceHolder(c, dmTitle)
  {
    EditorPrefix + MessageEditorPlaceHolder(c, dmTitle)
  }

  const DMTitlePrefix: string := "Direct message with "
  const DMTitleSuffix: string := " others"

  /** Reads the member count back out of a direct-message sub-view title. */
  function ParseDMTitle(t: string): Option<nat> {
    if |t| >= |DMTitlePrefix| + |DMTitleSuffix|
       && t[..|DMTitlePrefix|] == DMTitlePrefix
       && t[|t| - |DMTitleSuffix|..] == DMTitleSuffix
    then Decimal.Parse(t[|DMTitlePrefix|..|t| - |DMTitleSuffix|])
    else None
  }

  /** The channel name shown in the thread sub-view header: for a direct
      message a sentence naming the member count, otherwise the name. */
  function SubViewTitle(c: ChannelInfo): (t: string)
    ensures c.kind == "DM" ==> ParseDMTitle(t) == Some(c.memberCount)
    ensures c.kind != "DM" ==> t == c.name
  {
    if c.kind == "DM" then
      var digits := Decimal.FromNat(c.memberCount);
      var t := DMTitlePrefix + digits + DMTitleSuffix;
      assert t[..|DMTitlePrefix|] == DMTitlePrefix;
      assert t[|t| - |DMTitleSuffix|..] == DMTitleSuffix;
      assert t[|DMTitlePrefix|..|t| - |DMTitleSuffix|] == digits;
      Decimal.ParseFromNat(c.memberCount);
      t
    else
      c.name
  }

  /** A piece of the line at the top of the list: text, or an inline icon. */
  datatype Segment = Text(text: string) | InlineIcon(icon: Icon)

  const DMIntroText: string := "This is the very beginning of your group conversation"
  const ChannelIntroText: string := "This is the very beginning of the "

  /** The opening line of the list: a fixed sentence for a direct message,
      otherwise a sentence that shows the channel's own icon and its name. */
  function IntroLine(c: ChannelInfo): (line: seq<Segment>)
    ensures c.kind == "DM" ==> line == [Text(DMIntroText)]
    ensures c.kind != "DM" ==>
      |line| == 4 && line[0] == Text(ChannelIntroText) && line[3] == Text("channel")
      && line[1] == InlineIcon(ChannelIcon(c.kind)) && line[1].icon != MessageIcon
      && line[2] == Text(c.name)
  {
    if c.kind == "DM" then
      [Text(DMIntroText)]
    else
      [Text(ChannelIntroText), InlineIcon(ChannelIcon(c.kind)), Text(c.name), Text("channel")]
  }
}
