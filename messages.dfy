/**
  The shapes that the chat widget passes around: chat turns, search matches,
  the citations an answer carries, the message posted into the FAQ frame, and
  the observable effects the host page performs.
 */
module Messages {
  import opened Wrappers

  /** Who wrote a turn; the source spells these 'user' and 'ai'. */
  datatype Role = User | Ai

  /** One element of the search service's JSON answer, as the chat reads it. */
  datatype Match = Match(answer: string, category: string, question: string)

  /** A source entry under an answer; clicking it calls `closeChat(index)`. */
  datatype Citation = Citation(category: string, question: string, index: nat)

  /**
    The content of a turn. The source renders an answer as HTML; the model
    keeps its structure: the displayed matches and the source entries.
   */
  datatype Content =
    | Text(text: string)
    | Answer(matches: seq<Match>, sources: seq<Citation>)

  datatype Message = Message(role: Role, content: Content)

  /**
    The message posted into the FAQ frame. `index` is whatever the sender put
    there; `None` stands for an `index` property that was absent.
   */
  datatype BridgeMessage = ScrollToFAQ(index: Option<int>)

  /** What the host page has been asked to do, in the order it was asked. */
  datatype Effect =
    | ChatShown
    | ChatHidden
    | FramePost(message: BridgeMessage)
}
