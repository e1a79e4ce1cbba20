/**
 * The conversation state machine of the messaging page: the message list,
 * the composer draft and the loading flag, changed by the page's events
 * (mount, a change of props, the load of a conversation, submitting the
 * draft, the completion of a send, editing the draft and key presses), and
 * the screen that is drawn from that state.
 *
 * The network is not modelled: a read or a send is a request value that the
 * page issues, and its completion is an event that carries an abstract
 * outcome.
 */
module Messaging {
  import opened EcmaTrim

  datatype Option<T> = None | Some(value: T)

  /** A stored message, as the message store returns it. */
  datatype Message = Message(
    id: string,
    sender: string,
    receiver: string,
    content: string,
    timestamp: string)

  /** GET /api/messages?sender=..&receiver=.. */
  datatype ReadRequest = ReadRequest(sender: string, receiver: string)

  /** POST /api/messages/send with body {sender, receiver, content}. */
  datatype SendRequest = SendRequest(sender: string, receiver: string, content: string)

  /** How a read ends: the request itself is rejected (network error), or a
      response arrives with a status and a body that either parses to a list
      of messages or fails to parse. */
  datatype ReadOutcome =
    | Rejected
    | Responded(status: int, body: Option<seq<Message>>)

  /** How a send ends: the request is rejected, or any response arrives
      (whatever its status; its body is never read). */
  datatype SendOutcome = Threw | Returned(status: int)

  /** `response.ok` of the Fetch standard: a status in the range 200-299. */
  predicate IsOk(status: int) {
    200 <= status <= 299
  }

  /** fetchMessages: the list a read yields. Every failure (rejection, a
      status outside 200-299, a body that does not parse) yields the empty
      list; a successful read yields the body unchanged. */
  function FetchMessages(outcome: ReadOutcome): (ms: seq<Message>)
    ensures outcome.Responded? && IsOk(outcome.status) && outcome.body.Some? ==> ms == outcome.body.value
    ensures !(outcome.Responded? && IsOk(outcome.status) && outcome.body.Some?) ==> ms == []
  {
    match outcome
    case Rejected => []
    case Responded(status, body) =>
      if IsOk(status) && body.Some? then body.value else []
  }

  /** A failed read cannot be told apart from a conversation that has no
      messages: there is no error state. */
  lemma FailedReadLooksEmpty(outcome: ReadOutcome)
    requires outcome.Rejected? || !IsOk(outcome.status) || outcome.body.None?
    ensures FetchMessages(outcome) == FetchMessages(Responded(200, Some([])))
  {
  }

  /** How a message is drawn: on the "sent" side when the viewer wrote it,
      otherwise on the "received" side. */
  datatype Side = Sent | Received

  datatype Bubble = Bubble(key: string, text: string, timestamp: string, side: Side)

  /** What the page shows: the loader alone, or the conversation. */
  datatype Screen = Loader | Conversation(bubbles: seq<Bubble>)

  /** messages.map(...): one bubble per message, in the stored order. */
  function Bubbles(viewer: string, ms: seq<Message>): (bs: seq<Bubble>)
    ensures |bs| == |ms|
    ensures forall i :: 0 <= i < |ms| ==>
      bs[i].key == ms[i].id && bs[i].text == ms[i].content &&
      bs[i].timestamp == ms[i].timestamp &&
      (bs[i].side == Sent <==> ms[i].sender == viewer)
  {
    if ms == [] then []
    else
      var m := ms[0];
      [Bubble(m.id, m.content, m.timestamp, if m.sender == viewer then Sent else Received)]
        + Bubbles(viewer, ms[1..])
  }

  /** The page's render: the loader while a load is in progress, otherwise
      every stored message in order, classed by who sent it. */
  function Render(currentUser: string, messages: seq<Message>, isFetching: bool): (screen: Screen)
    ensures screen.Loader? <==> isFetching
    ensures screen.Conversation? ==>
      |screen.bubbles| == |messages| &&
      forall i :: 0 <= i < |messages| ==>
        screen.bubbles[i].key == messages[i].id &&
        screen.bubbles[i].text == messages[i].content &&
        screen.bubbles[i].timestamp == messages[i].timestamp &&
        (screen.bubbles[i].side == Sent <==> messages[i].sender == currentUser)
  {
    if isFetching then Loader else Conversation(Bubbles(currentUser, messages))
  }

  /** Seen from the other end of a conversation, every message of that
      conversation swaps sides. */
  lemma BubblesMirror(a: string, b: string, ms: seq<Message>, i: nat)
    requires a != b && i < |ms|
    requires ms[i].sender in {a, b}
    ensures Bubbles(a, ms)[i].side == Sent <==> Bubbles(b, ms)[i].side == Received
  {
  }

  /** The page component. Its props are `currentUser` and `otherUser`; its
      state is the message list, the composer draft and the loading flag.
      `issued` records every read the page has started and `resolved` how
      many of them have completed. */
  class MessagingPage {
    var currentUser: string
    var otherUser: string
    var messages: seq<Message>
    var draft: string
    var isFetching: bool
    ghost var issued: seq<ReadRequest>
    ghost var resolved: nat

    /** Once every read that was started has completed, the loader is gone. */
    ghost predicate Valid()
      reads this
    {
      resolved <= |issued| &&
      (resolved == |issued| ==> !isFetching)
    }

    /** The screen the page draws from its current state. */
    function CurrentScreen(): (screen: Screen)
      reads this
      ensures screen.Loader? <==> isFetching
      ensures screen.Conversation? ==>
        |screen.bubbles| == |messages| &&
        forall i :: 0 <= i < |messages| ==>
          screen.bubbles[i].key == messages[i].id &&
          screen.bubbles[i].text == messages[i].content &&
          screen.bubbles[i].timestamp == messages[i].timestamp &&
          (screen.bubbles[i].side == Sent <==> messages[i].sender == currentUser)
    {
      Render(currentUser, messages, isFetching)
    }

    /** Mount: the initial state (no messages, empty draft, loading), then
        the effect that loads the conversation of the two users. */
    constructor Mount(currentUser: string, otherUser: string)
      ensures Valid()
      ensures this.currentUser == currentUser && this.otherUser == otherUser
      ensures messages == [] && draft == "" && isFetching
      ensures issued == [ReadRequest(currentUser, otherUser)] && resolved == 0
    {
      this.currentUser := currentUser;
      this.otherUser := otherUser;
      messages := [];
      draft := "";
      isFetching := true;
      issued := [ReadRequest(currentUser, otherUser)];
      resolved := 0;
    }

    /** loadMessages, up to the awaited read: the loader goes up and a read
        of the conversation between the two current users is issued. */
    method BeginLoad() returns (req: ReadRequest)
      requires Valid()
      modifies this
      ensures Valid()
      ensures req == ReadRequest(currentUser, otherUser)
      ensures isFetching && issued == old(issued) + [req] && resolved == old(resolved)
      ensures currentUser == old(currentUser) && otherUser == old(otherUser)
      ensures messages == old(messages) && draft == old(draft)
    {
      req := ReadRequest(currentUser, otherUser);
      isFetching := true;
      issued := issued + [req];
    }

    /** loadMessages, after the read: the list is replaced by what the read
        yields (nothing is merged with the old list) and the loader goes
        down, whether the read succeeded or not. */
    method CompleteLoad(outcome: ReadOutcome)
      requires Valid() && resolved < |issued|
      modifies this
      ensures Valid()
      ensures messages == FetchMessages(outcome) && !isFetching
      ensures issued == old(issued) && resolved == old(resolved) + 1
      ensures currentUser == old(currentUser) && otherUser == old(otherUser)
      ensures draft == old(draft)
    {
      messages := FetchMessages(outcome);
      isFetching := false;
      resolved := resolved + 1;
    }

    /** handleSendMessage, up to the awaited send (the send button's click):
        a blank draft issues nothing; any other draft issues one send from
        the current user to the other user with the draft as it is,
        untrimmed. The state is not changed: the draft is cleared only once
        the send completes. */
    method Submit() returns (req: Option<SendRequest>)
      ensures req.None? <==> forall i :: 0 <= i < |draft| ==> IsTrimmable(draft[i])
      ensures req.Some? ==> req.value == SendRequest(currentUser, otherUser, draft)
    {
      if IsBlank(draft) {
        req := None;
      } else {
        req := Some(SendRequest(currentUser, otherUser, draft));
      }
    }

    /** handleSendMessage, after the awaited send `req`. When the send was
        rejected nothing changes and nothing is reloaded. Otherwise, whatever
        the response status, the draft is cleared and a load of the
        conversation of `req`'s two users begins. */
    method CompleteSend(req: SendRequest, outcome: SendOutcome) returns (reload: Option<ReadRequest>)
      requires Valid()
      modifies this
      ensures Valid()
      ensures reload.None? <==> outcome.Threw?
      ensures outcome.Threw? ==>
        draft == old(draft) && isFetching == old(isFetching) && issued == old(issued)
      ensures outcome.Returned? ==>
        reload == Some(ReadRequest(req.sender, req.receiver)) &&
        draft == "" && isFetching && issued == old(issued) + [reload.value]
      ensures messages == old(messages) && resolved == old(resolved)
      ensures currentUser == old(currentUser) && otherUser == old(otherUser)
    {
      if outcome.Threw? {
        reload := None;
      } else {
        draft := "";
        var r := ReadRequest(req.sender, req.receiver);
        isFetching := true;
        issued := issued + [r];
        reload := Some(r);
      }
    }

    /** The input's onChange: the draft becomes the edited text. */
    method SetDraft(text: string)
      modifies this`draft
      ensures draft == text
    {
      draft := text;
    }

    /** The input's onKeyPress: "Enter" submits the draft, any other key
        does nothing. */
    method KeyPress(key: string) returns (req: Option<SendRequest>)
      ensures key != "Enter" ==> req.None?
      ensures key == "Enter" ==>
        (req.None? <==> forall i :: 0 <= i < |draft| ==> IsTrimmable(draft[i]))
      ensures req.Some? ==> req.value == SendRequest(currentUser, otherUser, draft)
    {
      if key == "Enter" {
        req := Submit();
      } else {
        req := None;
      }
    }

    /** A re-render with new props. The load effect depends on `otherUser`
        only: a new other user starts a load for the new pair of users, and
        a change of the current user alone starts none. The state is kept. */
    method ReceiveProps(currentUser': string, otherUser': string) returns (load: Option<ReadRequest>)
      requires Valid()
      modifies this
      ensures Valid()
      ensures currentUser == currentUser' && otherUser == otherUser'
      ensures load.Some? <==> otherUser' != old(otherUser)
      ensures load.Some? ==>
        load.value == ReadRequest(currentUser', otherUser') &&
        isFetching && issued == old(issued) + [load.value]
      ensures load.None? ==> isFetching == old(isFetching) && issued == old(issued)
      ensures messages == old(messages) && draft == old(draft) && resolved == old(resolved)
    {
      var changed := otherUser' != otherUser;
      currentUser := currentUser';
      otherUser := otherUser';
      if changed {
        var r := BeginLoad();
        load := Some(r);
      } else {
        load := None;
      }
    }
  }

  /** A short session between alice and bob, followed through the page's
      contracts alone. */
  method AliceAndBob() {
    var page := new MessagingPage.Mount("alice", "bob");
    assert page.CurrentScreen() == Loader;

    var hi := Message("1", "bob", "alice", "hi", "2024-01-01T00:00:00Z");
    page.CompleteLoad(Responded(200, Some([hi])));
    var screen := page.CurrentScreen();
    assert |screen.bubbles| == 1 && screen.bubbles[0].side == Received;

    page.SetDraft("  ");
    var blank := page.Submit();
    assert blank.None? by { assert IsTrimmable(page.draft[0]) && IsTrimmable(page.draft[1]); }
    assert page.draft == "  ";

    page.SetDraft(" yo ");
    var send := page.KeyPress("Enter");
    assert !IsTrimmable(page.draft[1]);
    assert send == Some(SendRequest("alice", "bob", " yo "));

    var reload := page.CompleteSend(send.value, Returned(500));
    assert reload == Some(ReadRequest("alice", "bob"));
    assert page.draft == "" && page.CurrentScreen() == Loader;

    page.CompleteLoad(Rejected);
    assert page.CurrentScreen() == Conversation([]);
  }
}
