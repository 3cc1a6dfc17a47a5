/**
  The page as rendered (frontend/src/components/FAQPage.js:28-63): the
  frame, the button that opens the chat, and the dialog, present exactly
  while `showChat` holds and seeded from the accumulated history whenever
  it is mounted.
 */
module Widget {
  import opened Wrappers
  import opened Messages
  import Host
  import Chat

  class App {
    const page: Host.FaqPage
    /** The mounted dialog, if any. */
    var dialog: Chat.ChatDialog?

    ghost predicate Valid()
      reads this, page, dialog
    {
      && page.Valid()
      && page.handler.Some?
      && Chat.Transcript(page.chatHistory)
      && (dialog != null <==> page.showChat)
      && (dialog != null ==>
            && dialog.host == page
            && dialog.messages == page.chatHistory
            && dialog.hookInstalled)
    }

    /** The page mounts: its message handler is registered, the chat is closed. */
    constructor (iframePresent: bool)
      ensures Valid() && fresh(page)
      ensures page.iframePresent == iframePresent
      ensures dialog == null && page.chatHistory == [Host.SeedMessage] && page.log == []
    {
      var p := new Host.FaqPage(iframePresent);
      p.Mount();
      page := p;
      dialog := null;
    }

    /**
      The "Ask Saras AI" button. A closed chat mounts a fresh dialog whose
      messages are the history so far, so the conversation survives closing
      and reopening; an open one stays as it is.
     */
    method ClickAskButton()
      requires Valid()
      modifies this`dialog, page`showChat, page`log
      ensures Valid()
      ensures page.showChat && dialog != null
      ensures page.log == old(page.log) + [ChatShown]
      ensures page.chatHistory == old(page.chatHistory) && dialog.messages == old(page.chatHistory)
      ensures old(dialog) != null ==> dialog == old(dialog)
      ensures old(dialog) == null ==> fresh(dialog) && dialog.query == "" && dialog.requests == []
    {
      page.OpenChat();
      if dialog == null {
        var d := new Chat.ChatDialog(page);
        d.InstallHook();
        dialog := d;
      }
    }

    /** Typing into the open dialog's input. */
    method Type(text: string)
      requires Valid() && dialog != null
      modifies dialog`query
      ensures Valid() && dialog.query == text
    {
      dialog.SetQuery(text);
    }

    /**
      Send or Enter in the open dialog. The history and the dialog's list
      stay equal and keep the shape of a transcript; a nonblank query adds
      exactly one exchange and leaves every earlier turn as it was.
     */
    method Send(outcome: Chat.SearchOutcome)
      requires Valid() && dialog != null
      modifies dialog`query, dialog`messages, dialog`requests, page`chatHistory
      ensures Valid()
      ensures Chat.IsBlank(old(dialog.query)) ==> page.chatHistory == old(page.chatHistory)
      ensures !Chat.IsBlank(old(dialog.query)) ==>
        page.chatHistory == old(page.chatHistory) + Chat.Exchange(old(dialog.query), outcome)
      ensures Chat.IsBlank(old(dialog.query)) ==>
        dialog.query == old(dialog.query) && dialog.requests == old(dialog.requests)
      ensures !Chat.IsBlank(old(dialog.query)) ==>
        dialog.query == "" && dialog.requests == old(dialog.requests) + [old(dialog.query)]
    {
      ghost var before := page.chatHistory;
      ghost var q := dialog.query;
      dialog.HandleSearch(outcome);
      if !Chat.IsBlank(q) {
        Chat.ExchangeKeepsTranscript(before, q, outcome);
      }
    }

    /**
      A click on a source entry: the hook closes the chat and posts the
      scroll request, then the dialog unmounts and its hook is deleted.
     */
    method ClickCitation(index: int)
      requires Valid() && dialog != null
      modifies this`dialog, dialog`hookInstalled, page`showChat, page`log
      ensures Valid()
      ensures !page.showChat && dialog == null && !old(dialog).hookInstalled
      ensures page.chatHistory == old(page.chatHistory)
      ensures page.log == old(page.log) + [ChatHidden] +
        (if page.iframePresent then [FramePost(ScrollToFAQ(Some(index)))] else [])
    {
      var called := dialog.CloseChat(index);
      dialog.RemoveHook();
      dialog := null;
    }

    /** The dialog's close button: `onClose`, then the dialog unmounts. */
    method ClickCloseButton()
      requires Valid() && dialog != null
      modifies this`dialog, dialog`hookInstalled, page`showChat, page`log
      ensures Valid()
      ensures !page.showChat && dialog == null && !old(dialog).hookInstalled
      ensures page.chatHistory == old(page.chatHistory)
      ensures page.log == old(page.log) + [ChatHidden]
    {
      page.OnClose();
      dialog.RemoveHook();
      dialog := null;
    }

    /** A message event on the host window, from any sender. */
    method WindowMessage(data: Host.EventData) returns (threw: bool)
      requires Valid()
      modifies page`log
      ensures Valid()
      ensures threw <==> data.Absent?
      ensures page.log == old(page.log) + Host.PostEffects(Host.HandleMessage(data, page.iframePresent))
    {
      threw := page.ReceiveMessage(data);
    }
  }

  /**
    A session: ask "What is the refund policy?", receive two matches, then
    click the second source entry.
   */
  method RefundPolicySession(a: Match, b: Match)
  {
    var app := new App(true);
    app.ClickAskButton();
    app.Type("What is the refund policy?");
    app.Send(Chat.Response(200, [a, b]));
    var h := app.page.chatHistory;
    assert |h| == 3 && h[0] == Host.SeedMessage;
    assert h[1] == Message(User, Text("What is the refund policy?"));
    assert h[2].content.sources == [Citation(a.category, a.question, 0), Citation(b.category, b.question, 1)];
    app.ClickCitation(1);
    assert app.page.log == [ChatShown, ChatHidden, FramePost(ScrollToFAQ(Some(1)))];
    assert app.page.chatHistory == h;
    app.ClickAskButton();
    assert app.dialog.messages == h;
  }
}
