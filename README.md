# Messaging page conversation state machine

A Dafny model of the direct-messaging page of a social-media client
(`src/_root/pages/MessagingPage.tsx`). The page holds three pieces of state:
the message list (`messages`), the composer draft (`messageValue`, here
`draft`) and the loading flag (`isFetching`). Its props are `currentUser` and
`otherUser`. The page changes that state through a few events:

- mounting, or receiving a new `otherUser`, starts a load of the conversation;
- a load raises the loader, and when the read completes it replaces the whole
  list with what the read yields (an empty list on any failure) and lowers the
  loader;
- submitting the draft (the send button, or the "Enter" key) does nothing for
  a blank draft and otherwise issues one send request;
- when that send completes without being rejected, the draft is cleared and
  the conversation is reloaded;
- editing the input assigns the draft.

The screen is a function of the state alone. It shows the loader while
loading, and otherwise one bubble per message in stored order, on the "sent"
side exactly when the message's sender is the current user.

Files:

- `trim.dfy`, module `EcmaTrim`: the blank test `messageValue.trim() === ""`.
  This is String.prototype.trim over the WhiteSpace (section 12.2) and
  LineTerminator (section 12.3) code points of ECMA-262.
- `messaging.dfy`, module `Messaging`: messages, requests and abstract
  outcomes; `FetchMessages` (failure becomes `[]`); `Render`, the view; the
  class `MessagingPage`, whose methods are the page's events; and a
  client method `AliceAndBob` that follows a short session through the
  contracts.

The network is replaced by values. A read or a send is a request the page
issues (`ReadRequest`, `SendRequest`). Its completion is a separate event that
carries an abstract outcome (`ReadOutcome`, `SendOutcome`). The class keeps a
ghost log of issued reads and a count of completed ones. Its invariant
`Valid()` says that once every issued read has completed, the loader is down.

Two details of the code decide the outcome of a request:

- A rejected send (the `fetch` promise throws) neither clears the draft nor
  reloads. Any HTTP response, an error status included, clears the draft and
  reloads, because `fetch` resolves for every status.
- A read fails when `response.ok` is false, which is any status outside
  200-299.

## Model

| member | source | states |
|---|---|---|
| EcmaTrim.LeadingSpace | src/_root/pages/MessagingPage.tsx:62 | the count of leading characters that trim removes: all of them are WhiteSpace or LineTerminator, and the next character is not |
| EcmaTrim.TrailingSpace | src/_root/pages/MessagingPage.tsx:62 | the count of trailing characters that trim removes: all of them are WhiteSpace or LineTerminator, and the one before them is not |
| EcmaTrim.Trim | src/_root/pages/MessagingPage.tsx:62 | `trim()` yields the slice of the draft after its leading white space, only white space follows that slice, and the slice neither starts nor ends with white space |
| EcmaTrim.IsBlank | src/_root/pages/MessagingPage.tsx:62 | `trim() === ""` holds exactly when every character of the draft is WhiteSpace or LineTerminator (both directions; the empty draft is blank) |
| Messaging.FetchMessages | src/_root/pages/MessagingPage.tsx:22-31 | a read yields its parsed body unchanged when the request resolves with `response.ok` and the body parses; a rejection, a status outside 200-299 or an unparsable body yields the empty list |
| Messaging.FailedReadLooksEmpty | src/_root/pages/MessagingPage.tsx:25-30 | a failed read yields the same list as a successful read of an empty conversation: there is no error state |
| Messaging.Bubbles | src/_root/pages/MessagingPage.tsx:123-128 | `messages.map`: one bubble per message, same length and order, keyed by the message id, showing its content and timestamp, classed "sent" iff the sender is the viewer and "received" otherwise |
| Messaging.Render | src/_root/pages/MessagingPage.tsx:91-135 | the loader is shown iff a load is in progress; otherwise one bubble per stored message, in order, classed "sent" iff its sender is the current user |
| Messaging.BubblesMirror | src/_root/pages/MessagingPage.tsx:127 | a message between two users is "sent" for one of them exactly when it is "received" for the other |
| Messaging.MessagingPage.CurrentScreen | src/_root/pages/MessagingPage.tsx:91-135 | the page's screen is the loader iff `isFetching`, otherwise one bubble per stored message, in order, showing its id, content and timestamp, classed "sent" iff its sender is `currentUser` |
| Messaging.MessagingPage.Mount | src/_root/pages/MessagingPage.tsx:35-51 | initial state: no messages, empty draft, loading; the mount effect issues one read for (currentUser, otherUser) |
| Messaging.MessagingPage.BeginLoad | src/_root/pages/MessagingPage.tsx:41-43 | the loader goes up and one read for the current (currentUser, otherUser) pair is issued; list and draft are unchanged |
| Messaging.MessagingPage.CompleteLoad | src/_root/pages/MessagingPage.tsx:43-45 | the list becomes exactly what the read yields (no merge with the old list), the loader goes down, the draft is unchanged, and the invariant is kept |
| Messaging.MessagingPage.Submit | src/_root/pages/MessagingPage.tsx:61-78 | a blank draft issues no send; a non-blank draft issues exactly one send with sender = currentUser, receiver = otherUser and content = the untrimmed draft; nothing in the state changes |
| Messaging.MessagingPage.CompleteSend | src/_root/pages/MessagingPage.tsx:72-87 | a rejected send changes nothing and reloads nothing; a send that gets any response clears the draft and issues one read for the sender and receiver of that send; the list is unchanged |
| Messaging.MessagingPage.SetDraft | src/_root/pages/MessagingPage.tsx:145 | the draft becomes the edited text and nothing else changes |
| Messaging.MessagingPage.KeyPress | src/_root/pages/MessagingPage.tsx:146-148 | "Enter" submits the draft exactly as the send button does; any other key issues nothing |
| Messaging.MessagingPage.ReceiveProps | src/_root/pages/MessagingPage.tsx:49-51 | a read for the new pair is issued iff `otherUser` changed; a change of `currentUser` alone issues none; list and draft are kept |

## Left out

- The HTTP layer: `fetch`, the query-string construction (the users are put
  into the URL without encoding), JSON parsing of the response and
  `JSON.stringify` of the send body. Reads and sends are abstract outcomes.
  A body that parses to something other than a list of messages is not
  modelled.
- Interleavings of asynchronous callbacks. Each load and send is a begin
  event and a completion event. The model does not track which of several
  outstanding reads completes. So it says nothing about the race in which an
  older read resolves last and overwrites a newer list. It also says nothing
  about a second submit while a send is in flight.
- React scheduling. Each effect runs as part of the event that triggers it.
  The render that React performs with new props before the effect raises the
  loader, which still shows the old list, is not modelled.
- Rendering of the composer while loading. The input and send button are not
  drawn while the loader is up. The model's `Submit`, `KeyPress` and
  `SetDraft` do not require the loader to be down; the code's handlers do not
  check it either.
- The scroll-to-bottom effect (DOM `scrollTop`/`scrollHeight`).
- Timestamp formatting with `toLocaleTimeString`: it depends on the date
  library and the locale. The bubble carries the raw timestamp string.
- Markup and CSS other than the sent/received split: header, images,
  profile picture, class names.
- Console logging of errors.
- JavaScript strings are sequences of UTF-16 code units. Here they are
  sequences of Dafny `char`. Every code point that `trim` removes is in the
  Basic Multilingual Plane, so the blank test is the same.
- `src/_auth/forms/ForgotPasswordForm.tsx` and `src/_root/RootLayout.tsx`
  are not part of this model. The first delegates validation to a schema
  library and its submit only shows a toast, resets the form and navigates.
  The second only lays out other components.
