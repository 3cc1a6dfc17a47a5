/**
  The chat panel (frontend/src/components/ChatDialog.js): query submission,
  the shaping of one search outcome into exactly one assistant turn, and the
  `window.closeChat` hook behind the citation entries.
 */
module Chat {
  import opened Wrappers
  import opened Messages
  import Host

  // ---------------------------------------------------------------------
  // The blank-query guard: `!query.trim()`

  /**
    The characters JavaScript's `String.prototype.trim` strips: the
    WhiteSpace and LineTerminator code points of ECMAScript (section 12.2
    and 12.3 of ECMA-262), including every space separator of Unicode.
   */
  predicate IsWhiteSpace(c: char) {
    || c == '\t' || c == '\n' || c == '\U{B}' || c == '\U{C}' || c == '\r'
    || c == ' ' || c == '\U{A0}' || c == '\U{1680}'
    || ('\U{2000}' <= c <= '\U{200A}')
    || c == '\U{2028}' || c == '\U{2029}' || c == '\U{202F}' || c == '\U{205F}'
    || c == '\U{3000}' || c == '\U{FEFF}'
  }

  predicate AllWhiteSpace(s: string) {
    forall i :: 0 <= i < |s| ==> IsWhiteSpace(s[i])
  }

  /** `s` without its leading white space. */
  function TrimStart(s: string): (r: string)
    ensures r == [] || !IsWhiteSpace(r[0])
  {
    if s != [] && IsWhiteSpace(s[0]) then TrimStart(s[1..]) else s
  }

  /** `s` without its trailing white space. */
  function TrimEnd(s: string): (r: string)
    ensures r == [] || !IsWhiteSpace(r[|r| - 1])
  {
    if s != [] && IsWhiteSpace(s[|s| - 1]) then TrimEnd(s[..|s| - 1]) else s
  }

  function Trim(s: string): string {
    TrimEnd(TrimStart(s))
  }

  /** `!query.trim()`: the trimmed query is the empty, falsy, string. */
  predicate IsBlank(s: string) {
    Trim(s) == ""
  }

  /** Trimming the start leaves a suffix of the text and removes only white space. */
  lemma {:induction false} TrimStartIsSuffix(s: string)
    ensures |TrimStart(s)| <= |s| && TrimStart(s) == s[|s| - |TrimStart(s)|..]
    ensures AllWhiteSpace(s[..|s| - |TrimStart(s)|])
  {
    if s != [] && IsWhiteSpace(s[0]) {
      TrimStartIsSuffix(s[1..]);
      var k := |s| - |TrimStart(s)|;
      assert s[..k] == [s[0]] + s[1..][..k - 1];
    }
  }

  /** Trimming the end leaves a prefix of the text and removes only white space. */
  lemma {:induction false} TrimEndIsPrefix(s: string)
    ensures |TrimEnd(s)| <= |s| && TrimEnd(s) == s[..|TrimEnd(s)|]
    ensures AllWhiteSpace(s[|TrimEnd(s)|..])
  {
    if s != [] && IsWhiteSpace(s[|s| - 1]) {
      TrimEndIsPrefix(s[..|s| - 1]);
      var k := |TrimEnd(s)|;
      assert s[k..] == s[..|s| - 1][k..] + [s[|s| - 1]];
    }
  }

  lemma {:induction false} TrimStartEmpty(s: string)
    ensures TrimStart(s) == [] <==> AllWhiteSpace(s)
  {
    if s != [] {
      TrimStartEmpty(s[1..]);
      if IsWhiteSpace(s[0]) {
        assert AllWhiteSpace(s) <==> AllWhiteSpace(s[1..]) by {
          assert forall i :: 0 < i < |s| ==> s[i] == s[1..][i - 1];
        }
      }
    }
  }

  lemma {:induction false} TrimEndKeepsLeadingText(s: string)
    requires s != [] && !IsWhiteSpace(s[0])
    ensures TrimEnd(s) != []
  {
    if IsWhiteSpace(s[|s| - 1]) {
      TrimEndKeepsLeadingText(s[..|s| - 1]);
    }
  }

  /** A query is rejected exactly when it consists of white space only. */
  lemma BlankIffAllWhiteSpace(s: string)
    ensures IsBlank(s) <==> AllWhiteSpace(s)
  {
    TrimStartEmpty(s);
    var t := TrimStart(s);
    if t != [] {
      TrimEndKeepsLeadingText(t);
    }
  }

  // ---------------------------------------------------------------------
  // Answer shaping

  /** How many matches an answer shows: `data.slice(0, 3)`. */
  const MaxShown: nat := 3

  const NoMatchNotice: string := "I'm sorry, I couldn't find a relevant answer to your question."
  const ErrorNotice: string := "I'm sorry, there was an error processing your request."

  function Min(a: nat, b: nat): nat {
    if a <= b then a else b
  }

  /** `xs.slice(0, n)`: the first `n` elements, or all of them when fewer. */
  function Take<T>(xs: seq<T>, n: nat): (r: seq<T>)
    ensures |r| == Min(n, |xs|)
    ensures forall i :: 0 <= i < |r| ==> r[i] == xs[i]
  {
    if n == 0 || xs == [] then [] else [xs[0]] + Take(xs[1..], n - 1)
  }

  /**
    The source entries of `ms` numbered from `first`: the `map((match,
    index) => ...)` that writes `window.closeChat(index)` into each entry.
   */
  function CitationsFrom(ms: seq<Match>, first: nat): (cs: seq<Citation>)
    ensures |cs| == |ms|
    ensures forall i :: 0 <= i < |ms| ==>
      cs[i] == Citation(ms[i].category, ms[i].question, first + i)
  {
    if ms == [] then [] else
      [Citation(ms[0].category, ms[0].question, first)] + CitationsFrom(ms[1..], first + 1)
  }

  /**
    What the `fetch` of one query ends in: a response with its HTTP status
    and the parsed JSON array, or an exception (network failure, unparsable
    body) with its message.
   */
  datatype SearchOutcome =
    | Response(status: int, data: seq<Match>)
    | Thrown(cause: string)

  /** `response.ok`: a status in the range 200 to 299. */
  predicate IsOk(status: int) {
    200 <= status <= 299
  }

  /** The user turn of a query: its text exactly as typed, untrimmed. */
  function UserTurn(query: string): Message {
    Message(User, Text(query))
  }

  /** The assistant turn for a nonempty match list (ChatDialog.js:57-90). */
  function AnswerTurn(data: seq<Match>): Message
    requires |data| > 0
  {
    var top := Take(data, MaxShown);
    Message(Ai, Answer(top, CitationsFrom(top, 0)))
  }

  /** The single assistant turn a search outcome turns into. */
  function AiReply(outcome: SearchOutcome): (m: Message)
    ensures m.role == Ai
    ensures (outcome.Thrown? || !IsOk(outcome.status)) ==> m.content == Text(ErrorNotice)
    ensures outcome.Response? && IsOk(outcome.status) && outcome.data == [] ==>
      m.content == Text(NoMatchNotice)
    ensures outcome.Response? && IsOk(outcome.status) && outcome.data != [] ==>
      var k := Min(MaxShown, |outcome.data|);
      && m.content.Answer?
      && m.content.matches == outcome.data[..k]
      && |m.content.sources| == k
      && forall i :: 0 <= i < k ==>
           m.content.sources[i] == Citation(outcome.data[i].category, outcome.data[i].question, i)
  {
    match outcome
    case Thrown(_) => Message(Ai, Text(ErrorNotice))
    case Response(status, data) =>
      if !IsOk(status) then Message(Ai, Text(ErrorNotice))
      else if |data| > 0 then AnswerTurn(data)
      else Message(Ai, Text(NoMatchNotice))
  }

  /**
    A citation click target names the displayed match it sits under: entry
    `i` carries index `i`, and the category and question of match `i`.
   */
  lemma CitationsNameTheirMatch(outcome: SearchOutcome, i: nat)
    requires AiReply(outcome).content.Answer?
    requires i < |AiReply(outcome).content.sources|
    ensures var a := AiReply(outcome).content;
      && i < |a.matches| <= MaxShown
      && a.sources[i].index == i
      && a.sources[i].category == a.matches[i].category
      && a.sources[i].question == a.matches[i].question
  {
  }

  /** The reason of a failure never reaches the user: all failures read the same. */
  lemma ErrorTextHidden(c1: string, c2: string, s1: int, s2: int, d1: seq<Match>, d2: seq<Match>)
    requires !IsOk(s1) && !IsOk(s2)
    ensures AiReply(Thrown(c1)) == AiReply(Thrown(c2)) == AiReply(Response(s1, d1)) == AiReply(Response(s2, d2))
  {
  }

  // ---------------------------------------------------------------------
  // The transcript

  /**
    The shape of a chat history built from the greeting by complete
    exchanges: the greeting, then user and assistant turns alternating.
   */
  ghost predicate Transcript(h: seq<Message>) {
    && |h| % 2 == 1
    && h[0] == Host.SeedMessage
    && forall i :: 1 <= i < |h| ==> h[i].role == (if i % 2 == 1 then User else Ai)
  }

  /** One exchange, a user turn and the assistant turn answering it. */
  function Exchange(query: string, outcome: SearchOutcome): (turns: seq<Message>)
    ensures |turns| == 2 && turns[0].role == User && turns[1].role == Ai
    ensures turns[0].content == Text(query)
  {
    [UserTurn(query), AiReply(outcome)]
  }

  lemma ExchangeKeepsTranscript(h: seq<Message>, query: string, outcome: SearchOutcome)
    requires Transcript(h)
    ensures Transcript(h + Exchange(query, outcome))
    ensures (h + Exchange(query, outcome))[..|h|] == h
  {
  }

  // ---------------------------------------------------------------------
  // The dialog component

  /** The functional updater `prev => [...prev, m]`. */
  function Appending(m: Message): seq<Message> -> seq<Message> {
    prev => prev + [m]
  }

  class ChatDialog {
    /** The page that mounted this dialog; `onClose` and `updateChatHistory` act on it. */
    const host: Host.FaqPage
    var query: string
    var messages: seq<Message>
    /** The bodies of the search requests sent, in order. */
    var requests: seq<string>
    /** Whether `window.closeChat` is this dialog's hook. */
    var hookInstalled: bool

    /** Mounting: `messages` starts as `initialMessages`, the page's history. */
    constructor (host: Host.FaqPage)
      ensures this.host == host
      ensures messages == host.chatHistory && query == "" && requests == [] && !hookInstalled
    {
      this.host := host;
      messages := host.chatHistory;
      query := "";
      requests := [];
      hookInstalled := false;
    }

    /** The effect that assigns `window.closeChat`. */
    method InstallHook()
      modifies this`hookInstalled
      ensures hookInstalled
    {
      hookInstalled := true;
    }

    /** The effect's cleanup: `delete window.closeChat`. */
    method RemoveHook()
      modifies this`hookInstalled
      ensures !hookInstalled
    {
      hookInstalled := false;
    }

    /** The input's `onChange`. */
    method SetQuery(text: string)
      modifies this`query
      ensures query == text
    {
      query := text;
    }

    /**
      `handleSearch`, run to completion with `outcome` as what the request
      ended in. A blank query changes nothing and sends nothing. Otherwise
      the user turn is appended, the query cleared, one request sent with
      the untrimmed text, and exactly one assistant turn appended; the local
      list and the page's history receive the same two turns.
     */
    method HandleSearch(outcome: SearchOutcome)
      modifies this`query, this`messages, this`requests, host`chatHistory
      ensures IsBlank(old(query)) ==>
        && query == old(query) && messages == old(messages) && requests == old(requests)
        && host.chatHistory == old(host.chatHistory)
      ensures !IsBlank(old(query)) ==>
        && query == ""
        && requests == old(requests) + [old(query)]
        && messages == old(messages) + Exchange(old(query), outcome)
        && host.chatHistory == old(host.chatHistory) + Exchange(old(query), outcome)
    {
      if IsBlank(query) {
        return;
      }
      var sent := query;
      var userMessage := UserTurn(query);
      messages := messages + [userMessage];
      host.UpdateChatHistory(Appending(userMessage));
      query := "";
      requests := requests + [sent];

      // The three branches of ChatDialog.js:56-102 each append this one turn.
      var aiMessage := AiReply(outcome);
      messages := messages + [aiMessage];
      host.UpdateChatHistory(Appending(aiMessage));
    }

    /**
      A click on source entry `index`: `window.closeChat(index)`. With the
      hook installed it closes the panel and then posts the scroll request
      into the frame, if there is one; without it the call fails and
      nothing happens.
     */
    method CloseChat(index: int) returns (called: bool)
      modifies host`showChat, host`log
      ensures called == hookInstalled
      ensures called ==> !host.showChat
      ensures called ==> host.log == old(host.log) + [ChatHidden] +
                         (if host.iframePresent then [FramePost(ScrollToFAQ(Some(index)))] else [])
      ensures !called ==> host.showChat == old(host.showChat) && host.log == old(host.log)
    {
      called := hookInstalled;
      if called {
        host.OnClose();
        host.PostToFrame(ScrollToFAQ(Some(index)));
      }
    }
  }
}
