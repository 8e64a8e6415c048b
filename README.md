# ThreadList rendering decisions

This project models the `ThreadList` component of a Slack-like team-chat web
client. The component shows the threads of one channel and makes three
decisions while rendering:

- **Continuity grouping.** Each thread is drawn as a message card. A card is
  "continuous" when it belongs to the same author group as the card above it.
  That holds when both threads have the same author and neither has replies.
- **Backward pagination.** When the list is scrolled to 150 pixels or less
  from its top, the component asks the store for older threads. The request
  names the channel and uses the id of the first thread in the store's
  `threadList` as its cursor.
- **Presentation by channel type.** The channel's type picks the icon, the
  message editor's placeholder, the title in the thread sub-view header and
  the opening line of the list. The types are a direct message ("DM"), a
  public channel ("PUBLIC") and any other type.

The component is pure, so the model uses datatypes and functions:

- `wrappers.dfy` holds the `Option` type.
- `decimal.dfy` (module `Decimal`) writes a whole number as decimal text, the
  way a template literal does, and parses it back.
- `thread_list.dfy` (module `ThreadList`) holds the three decisions.

The rendered list (`threads`, a prop) and the pagination cursor's source
(`threadList`, read from the store) are two separate inputs, as in the
component. The request's channel id is the channel prop's id coerced to a
number (`+channelInfo.id`) and arrives already numeric. It is not the
router's `channelId` parameter, which the component uses only for the thread
detail view.

`getDMChannelTitle` is not part of this model. The function itself is a
parameter `dmTitle: (seq<User>, int) -> string` of the functions that use it,
and nothing is assumed about it.

When the scroll offset is at or below the threshold and the store's
`threadList` is empty, the component reads the id of a missing first thread.
That throws a TypeError inside the scroll handler, and nothing is
dispatched. `HandleScrollTop` returns this as its own outcome,
`MissingFirstThread`.

## Model

| member | source | states |
|---|---|---|
| `ThreadList.RenderThreads` | client/src/component/organism/ThreadList/ThreadList.tsx:130-150 | exactly one card per thread, in input order, showing that thread and keyed by its id; card i is continuous iff i > 0, threads i-1 and i have the same author, and both have a reply count of zero |
| `ThreadList.FirstNeverContinuous` | client/src/component/organism/ThreadList/ThreadList.tsx:131-140 | the first card is never continuous, since it has no predecessor |
| `ThreadList.RepliedNeverContinuous` | client/src/component/organism/ThreadList/ThreadList.tsx:136-140 | a thread with a non-zero reply count is never continuous |
| `ThreadList.AfterRepliedNeverContinuous` | client/src/component/organism/ThreadList/ThreadList.tsx:138-140 | a thread whose predecessor has a non-zero reply count is never continuous |
| `ThreadList.ContinuityIsLocal` | client/src/component/organism/ThreadList/ThreadList.tsx:131-140 | the flag of card i depends only on threads i-1 and i: two lists that agree there give card i the same flag |
| `ThreadList.ContinuityIsPairwise` | client/src/component/organism/ThreadList/ThreadList.tsx:130-140 | the flags the component computes by index equal an independent definition that walks the list pair by pair: false first, then one "same group" test per adjacent pair |
| `ThreadList.RenderConcat` | client/src/component/organism/ThreadList/ThreadList.tsx:130-150 | rendering a + b gives the cards of a, then b's first card with a flag that tests it against a's last thread, then b's other cards unchanged; appending a new thread or putting a page of older threads on top changes no other card |
| `ThreadList.GroupHead` | client/src/component/organism/ThreadList/ThreadList.tsx:130-140 | every card belongs to a group whose head card j is not continuous while every later card up to it is; all threads of the group have the head's author, and in a group of two or more none has replies |
| `ThreadList.HandleScrollTop` | client/src/component/organism/ThreadList/ThreadList.tsx:40-50 | no request iff the scroll offset is above 150; at or below it, a request iff the store's list is non-empty, carrying the channel's numeric id and, as its cursor, the id of the store's first thread, and otherwise the TypeError of reading a missing first thread |
| `ThreadList.CursorIsOldest` | client/src/component/organism/ThreadList/ThreadList.tsx:41-48 | when the store keeps threads in creation order, the cursor of the request is a thread no newer than any loaded thread |
| `ThreadList.ChannelIcon` | client/src/component/organism/ThreadList/ThreadList.tsx:52-58 | the message icon iff the type is "DM", the hashtag icon iff it is "PUBLIC", the lock icon iff it is neither; every type gets exactly one icon |
| `ThreadList.MessageEditorPlaceHolder` | client/src/component/organism/ThreadList/ThreadList.tsx:60-63 | for "DM", the title `getDMChannelTitle` gives the member preview and member count; otherwise "#" followed by exactly the channel name |
| `ThreadList.EditorPlaceHolder` | client/src/component/organism/ThreadList/ThreadList.tsx:154-158 | the editor's placeholder is "Send a message to " followed by the channel placeholder, and the placeholder can be cut back out of it |
| `ThreadList.SubViewTitle` | client/src/component/organism/ThreadList/ThreadList.tsx:72-74 | for "DM", a "Direct message with N others" sentence from which the member count parses back exactly; otherwise the channel name |
| `ThreadList.IntroLine` | client/src/component/organism/ThreadList/ThreadList.tsx:99-113 | for "DM", the fixed group-conversation sentence; otherwise the channel sentence showing the channel's own (never the message) icon, the channel name and the word "channel" |
| `Decimal.FromNat` | client/src/component/organism/ThreadList/ThreadList.tsx:73 | a number writes as one or more digits with no leading zero; the text starts with "0" only for zero |
| `Decimal.ParseFromNat` | client/src/component/organism/ThreadList/ThreadList.tsx:73 | parsing the decimal text of a number gives the number back |
| `Decimal.FromNatParse` | client/src/component/organism/ThreadList/ThreadList.tsx:73 | every digit string with no leading zero is the decimal text of the number it denotes, so writing and parsing are inverse |

## Left out

- `scrollToBottom` and the effect that runs it when the last thread changes: a DOM side effect driven by React's lifecycle.
- The store and router wiring (`useDispatch`, `useSelector`, `useParams`) and `handleReplyButtonClick`: the model gives the request value that would be dispatched and no store state.
- The "created on" sentence: it formats a date through the locale-dependent `toLocaleDateString`, a foreign library call.
- The style constants and all other styling: presentational data only.
- `getDMChannelTitle`: its source is not part of this model, so it is an uninterpreted parameter.
- `ThreadList.HandleScrollTop`: the scroll offset is an integer here, while a browser may report a fractional one; the threshold test is the same for both.
- `ThreadList.SubViewTitle`: the member count is a non-negative whole number, written in plain decimal; the exponent form a JavaScript number takes from 10^21 up is not modelled.
- The Section and Text components and the message type declarations: hover and open toggles, styled-component CSS fallbacks, and type declarations with no behaviour to verify.
