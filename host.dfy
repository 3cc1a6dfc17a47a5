/**
  The host page (frontend/src/components/FAQPage.js): it embeds the FAQ
  frame, keeps the accumulated chat history and the `showChat` flag, and
  relays `scrollToFAQ` window messages into the frame.
 */
module Host {
  import opened Wrappers
  import opened Messages

  /** The fixed introduction the chat history starts with. */
  const Greeting: string :=
    "Hi! I'm an AI assistant trained on Saras AI documentation, help articles, and other content. Ask me anything about Saras AI."

  const SeedMessage: Message := Message(Ai, Text(Greeting))

  /** The only message type the relay recognises. */
  const ScrollType: string := "scrollToFAQ"

  /**
    The `data` of a window message event, as far as the handler looks at it.
    `Absent` is `null` or `undefined`, where reading `.type` throws. Any other
    value is a `Payload`: `kind` is its `type` property when that is a string,
    `index` its `index` property when that is a number.
   */
  datatype EventData =
    | Absent
    | Payload(kind: Option<string>, index: Option<int>)

  /** What one run of the message handler does. */
  datatype Handled = Forwarded(posts: seq<BridgeMessage>) | Threw

  /**
    The message handler registered on mount: a `scrollToFAQ` payload is
    re-posted into the frame with the same index, if the page has a frame;
    every other payload is ignored.
   */
  function HandleMessage(data: EventData, iframe: bool): (h: Handled)
    ensures h.Threw? <==> data.Absent?
    ensures h.Forwarded? ==> |h.posts| <= 1
    ensures h.Forwarded? ==> (h.posts != [] <==> iframe && data.kind == Some(ScrollType))
    ensures h.Forwarded? && h.posts != [] ==> h.posts[0] == ScrollToFAQ(data.index)
  {
    match data
    case Absent => Threw
    case Payload(kind, index) =>
      if kind == Some(ScrollType) && iframe then Forwarded([ScrollToFAQ(index)])
      else Forwarded([])
  }

  /** The frame posts of one handler run, as effects. */
  function PostEffects(h: Handled): (es: seq<Effect>)
    ensures h.Threw? ==> es == []
    ensures h.Forwarded? ==> |es| == |h.posts|
    ensures h.Forwarded? ==> forall i :: 0 <= i < |es| ==> es[i] == FramePost(h.posts[i])
  {
    match h
    case Threw => []
    case Forwarded(posts) => seq(|posts|, i requires 0 <= i < |posts| => FramePost(posts[i]))
  }

  class FaqPage {
    /** Whether `document.querySelector('iframe')` finds the FAQ frame. */
    const iframePresent: bool
    var showChat: bool
    var chatHistory: seq<Message>
    /** The ids of the handlers registered on `window` for 'message'. */
    var listeners: set<nat>
    /** The handler this page registered, while it is mounted. */
    var handler: Option<nat>
    var nextHandler: nat
    /** Everything the page has shown, hidden and posted into the frame. */
    var log: seq<Effect>

    ghost predicate Valid()
      reads this
    {
      && (forall id :: id in listeners ==> id < nextHandler)
      && (handler.Some? ==> handler.value in listeners)
    }

    /** The initial state: chat hidden, history holding only the greeting. */
    constructor (iframePresent: bool)
      ensures Valid()
      ensures this.iframePresent == iframePresent
      ensures !showChat && chatHistory == [SeedMessage]
      ensures listeners == {} && handler == None && log == []
    {
      this.iframePresent := iframePresent;
      showChat := false;
      chatHistory := [SeedMessage];
      listeners := {};
      handler := None;
      nextHandler := 0;
      log := [];
    }

    /** The mount effect: registers a new handler for window messages. */
    method Mount()
      requires Valid() && handler == None
      modifies this`listeners, this`handler, this`nextHandler
      ensures Valid()
      ensures old(nextHandler) !in old(listeners)
      ensures handler == Some(old(nextHandler))
      ensures listeners == old(listeners) + {old(nextHandler)}
    {
      var id := nextHandler;
      nextHandler := nextHandler + 1;
      listeners := listeners + {id};
      handler := Some(id);
    }

    /** The cleanup of the mount effect: removes the handler it registered. */
    method Unmount()
      requires Valid() && handler.Some?
      modifies this`listeners, this`handler
      ensures Valid()
      ensures handler == None
      ensures listeners == old(listeners) - {old(handler).value}
    {
      listeners := listeners - {handler.value};
      handler := None;
    }

    /** The "Ask Saras AI" button: `setShowChat(true)`. */
    method OpenChat()
      modifies this`showChat, this`log
      ensures showChat && log == old(log) + [ChatShown]
    {
      showChat := true;
      log := log + [ChatShown];
    }

    /** The `onClose` passed to the dialog: `setShowChat(false)`. */
    method OnClose()
      modifies this`showChat, this`log
      ensures !showChat && log == old(log) + [ChatHidden]
    {
      showChat := false;
      log := log + [ChatHidden];
    }

    /** The `updateChatHistory` passed to the dialog: a functional state update. */
    method UpdateChatHistory(update: seq<Message> -> seq<Message>)
      modifies this`chatHistory
      ensures chatHistory == update(old(chatHistory))
    {
      chatHistory := update(chatHistory);
    }

    /** Posts `m` into the frame found by `document.querySelector('iframe')`, if any. */
    method PostToFrame(m: BridgeMessage)
      modifies this`log
      ensures log == old(log) + (if iframePresent then [FramePost(m)] else [])
    {
      if iframePresent {
        log := log + [FramePost(m)];
      }
    }

    /**
      A message event on `window`: the page's handler runs if it is
      registered. `threw` says the handler raised a TypeError.
     */
    method ReceiveMessage(data: EventData) returns (threw: bool)
      requires Valid()
      modifies this`log
      ensures handler == None ==> !threw && log == old(log)
      ensures handler.Some? ==> var h := HandleMessage(data, iframePresent);
        threw == h.Threw? && log == old(log) + PostEffects(h)
    {
      threw := false;
      if handler.Some? {
        var h := HandleMessage(data, iframePresent);
        if h.Threw? {
          threw := true;
        } else {
          log := log + PostEffects(h);
        }
      }
    }
  }
}
