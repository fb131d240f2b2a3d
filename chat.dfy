/**
 * The chat tutor widget: a transcript of messages, an input box, a loading
 * flag and a lazily created conversation session, driven by a message pump
 * that streams the assistant's reply into the last transcript entry.
 *
 * `handleSend` is an async function with two suspension points (awaiting the
 * stream, awaiting each chunk). It is modelled as its synchronous prefix
 * (`Send`) plus one method per resumption (`StreamOpened`, `ChunkArrived`,
 * `StreamFailed`, `StreamEnded`), each naming the in-flight call it resumes.
 * Every in-flight call keeps its own local `fullText`.
 */
module Chat {
  import opened Wrappers
  import opened Text

  /** ChatMessage.role. */
  datatype Role = User | Model

  /** ChatMessage: one transcript entry. */
  datatype Message = Message(role: Role, text: string)

  const Greeting: string := "Hello! I am your AWS Security Architect assistant. Ask me anything about IAM, encryption, or security automation."
  const ErrorNotice: string := "Error: Could not connect to the AWS Security Assistant. Please check your API key."

  /** The opaque conversation handle returned by the generative-text service. */
  datatype Session = Session(handle: nat)

  /** Where a suspended `handleSend` call waits: for the stream, or inside the `for await` loop. */
  datatype Phase = AwaitingStream | Streaming

  /** One in-flight `handleSend` call: its suspension point and its local `fullText`. */
  datatype Exchange = Exchange(phase: Phase, fullText: string)

  /** What a streamed chunk contributes: `if (c.text)` skips an absent and an empty text. */
  function ChunkText(chunk: Option<string>): string {
    if chunk.Some? then chunk.value else ""
  }

  /** The running `fullText` after the given chunks, accumulated left to right. */
  function StreamText(chunks: seq<Option<string>>): string {
    if chunks == [] then "" else StreamText(chunks[..|chunks| - 1]) + ChunkText(chunks[|chunks| - 1])
  }

  /** The texts of the non-empty chunks, in arrival order. */
  function NonEmptyTexts(chunks: seq<Option<string>>): seq<string> {
    if chunks == [] then []
    else if ChunkText(chunks[0]) == "" then NonEmptyTexts(chunks[1..])
    else [ChunkText(chunks[0])] + NonEmptyTexts(chunks[1..])
  }

  /** The concatenation of a list of strings. */
  function Concat(parts: seq<string>): string {
    if parts == [] then "" else parts[0] + Concat(parts[1..])
  }

  /** Accumulating chunk by chunk distributes over splitting the stream. */
  lemma {:induction false} StreamTextAppend(a: seq<Option<string>>, b: seq<Option<string>>)
    ensures StreamText(a + b) == StreamText(a) + StreamText(b)
    decreases |b|
  {
    if b == [] {
      assert a + b == a;
    } else {
      var b' := b[..|b| - 1];
      assert (a + b)[..|a + b| - 1] == a + b';
      assert (a + b)[|a + b| - 1] == b[|b| - 1];
      StreamTextAppend(a, b');
    }
  }

  /** The model's reply text is the in-order concatenation of the non-empty chunk texts. */
  lemma {:induction false} StreamTextIsConcatOfNonEmpty(chunks: seq<Option<string>>)
    ensures StreamText(chunks) == Concat(NonEmptyTexts(chunks))
    ensures forall i :: 0 <= i < |NonEmptyTexts(chunks)| ==> NonEmptyTexts(chunks)[i] != ""
  {
    NonEmptyTextsAreNonEmpty(chunks);
    if chunks != [] {
      var c, rest := chunks[0], chunks[1..];
      StreamTextIsConcatOfNonEmpty(rest);
      assert chunks == [c] + rest;
      StreamTextAppend([c], rest);
      assert [c][..0] == [];
      assert StreamText([c]) == "" + ChunkText(c) == ChunkText(c);
      assert StreamText(chunks) == ChunkText(c) + StreamText(rest);
      if ChunkText(c) != "" {
        assert NonEmptyTexts(chunks) == [ChunkText(c)] + NonEmptyTexts(rest);
        assert ([ChunkText(c)] + NonEmptyTexts(rest))[1..] == NonEmptyTexts(rest);
      } else {
        assert "" + StreamText(rest) == StreamText(rest);
      }
    }
  }

  /** `NonEmptyTexts` keeps no empty text. */
  lemma {:induction false} NonEmptyTextsAreNonEmpty(chunks: seq<Option<string>>)
    ensures forall i :: 0 <= i < |NonEmptyTexts(chunks)| ==> NonEmptyTexts(chunks)[i] != ""
  {
    if chunks != [] {
      NonEmptyTextsAreNonEmpty(chunks[1..]);
    }
  }

  /** How a single exchange ends, as seen from the stream source. */
  datatype Outcome =
    | Completed                 // the stream ran to its end
    | FailedBeforeStream        // sendMessageStream rejected
    | FailedAfter(chunks: nat)  // the stream raised after this many chunks

  /** The service side of `createChatSession`: no client without an API key. */
  function CreateChatSession(apiKeyPresent: bool, handle: Session): Option<Session> {
    if apiKeyPresent then Some(handle) else None
  }

  /** The widget's state: its `useState` cells, the session ref and the suspended `handleSend` calls. */
  datatype State = State(
    apiKeyPresent: bool,             // whether `process.env.API_KEY` was set
    isOpen: bool,
    messages: seq<Message>,
    input: string,
    isLoading: bool,
    session: Option<Session>,        // `chatSessionRef.current`
    exchanges: map<nat, Exchange>,   // the `handleSend` calls still suspended, by call number
    nextExchange: nat)

  function Last(messages: seq<Message>): Message
    requires |messages| > 0
  {
    messages[|messages| - 1]
  }

  /** What every reachable state satisfies: a non-empty transcript and call numbers already issued. */
  predicate Consistent(s: State) {
    && |s.messages| > 0
    && (forall id :: id in s.exchanges ==> id < s.nextExchange)
    && (s.session.Some? ==> s.apiKeyPresent)
  }

  /**
   * The single-flight discipline the disabled send button implies
   * (`components/GeminiTutor.tsx:134`): at most one call in
   * flight, `isLoading` exactly while one is, and a streaming call's
   * placeholder is the last entry and holds its running text.
   */
  predicate SingleFlight(s: State) {
    && |s.messages| > 0
    && (forall a, b :: a in s.exchanges && b in s.exchanges ==> a == b)
    && (s.isLoading <==> s.exchanges != map[])
    && (forall id :: id in s.exchanges && s.exchanges[id].phase == Streaming ==>
          Last(s.messages) == Message(Model, s.exchanges[id].fullText))
  }

  /** The first render: one model-role greeting, closed, nothing typed, no session. */
  function Initial(apiKeyPresent: bool): (s: State)
    ensures Consistent(s) && SingleFlight(s)
    ensures s.messages == [Message(Model, Greeting)] && s.input == "" && !s.isOpen
    ensures !s.isLoading && s.session.None? && s.exchanges == map[]
  {
    State(apiKeyPresent, false, [Message(Model, Greeting)], "", false, None, map[], 0)
  }

  /**
   * The "Ask Expert" button, shown only while closed and when a key is
   * configured, followed by the effect that creates the session when the
   * widget is open and none exists yet.
   */
  function ClickOpen(s: State, handle: Session): (r: State)
    requires Consistent(s)
    ensures Consistent(r) && (SingleFlight(s) ==> SingleFlight(r))
    ensures r.isOpen == (s.isOpen || s.apiKeyPresent)
    ensures r.session != s.session ==>
      s.session.None? && !s.isOpen && r.isOpen && r.session == CreateChatSession(s.apiKeyPresent, handle)
    ensures r.session.None? ==> !s.apiKeyPresent || s.isOpen
    ensures r == s.(isOpen := r.isOpen, session := r.session)
  {
    if !s.apiKeyPresent || s.isOpen then s
    else s.(isOpen := true, session := if s.session.None? then CreateChatSession(s.apiKeyPresent, handle) else s.session)
  }

  /** The close button; an in-flight stream is not cancelled. */
  function ClickClose(s: State): (r: State)
    requires Consistent(s)
    ensures Consistent(r) && (SingleFlight(s) ==> SingleFlight(r))
    ensures !r.isOpen && r == s.(isOpen := false)
  {
    s.(isOpen := false)
  }

  /** The input box's `onChange`. */
  function SetInput(s: State, text: string): (r: State)
    requires Consistent(s)
    ensures Consistent(r) && (SingleFlight(s) ==> SingleFlight(r))
    ensures r.input == text && r == s.(input := text)
  {
    s.(input := text)
  }

  /** `handleSend` up to its first `await`: guard, append the user message, clear the input, start loading. */
  function Send(s: State): (r: State)
    requires Consistent(s)
    ensures Consistent(r)
    ensures IsBlank(s.input) || s.session.None? ==> r == s
    ensures !(IsBlank(s.input) || s.session.None?) ==>
      && r.messages == s.messages + [Message(User, s.input)]
      && r.input == "" && r.isLoading
      && s.nextExchange !in s.exchanges
      && r.exchanges == s.exchanges[s.nextExchange := Exchange(AwaitingStream, "")]
      && r.nextExchange == s.nextExchange + 1
      && r.isOpen == s.isOpen && r.session == s.session && r.apiKeyPresent == s.apiKeyPresent
  {
    if IsBlank(s.input) || s.session.None? then s
    else s.(messages := s.messages + [Message(User, s.input)], input := "", isLoading := true,
            exchanges := s.exchanges[s.nextExchange := Exchange(AwaitingStream, "")],
            nextExchange := s.nextExchange + 1)
  }

  /** The state `Send` moves to when its guard lets the message through. */
  function SentState(s: State): State {
    s.(messages := s.messages + [Message(User, s.input)], input := "", isLoading := true,
       exchanges := s.exchanges[s.nextExchange := Exchange(AwaitingStream, "")],
       nextExchange := s.nextExchange + 1)
  }

  lemma SendAppends(s: State)
    requires Consistent(s) && !(IsBlank(s.input) || s.session.None?)
    ensures Send(s) == SentState(s)
  {
  }

  lemma SendBlocked(s: State)
    requires Consistent(s) && (IsBlank(s.input) || s.session.None?)
    ensures Send(s) == s
  {
  }

  /** `handleSend` with the guard the disabled send button implies: ignored while a reply is loading. */
  function SendSingleFlight(s: State): (r: State)
    requires Consistent(s)
    ensures Consistent(r) && (SingleFlight(s) ==> SingleFlight(r))
    ensures s.isLoading ==> r == s
    ensures !s.isLoading ==> r == Send(s)
  {
    if s.isLoading then s else Send(s)
  }

  /** The send button's `disabled` attribute. */
  predicate SendDisabled(s: State) {
    s.isLoading || IsBlank(s.input)
  }

  /** The send button: a disabled button ignores clicks, so it behaves as the guarded handler. */
  function ClickSend(s: State): (r: State)
    requires Consistent(s)
    ensures r == SendSingleFlight(s)
    ensures SendDisabled(s) ==> r == s
  {
    if SendDisabled(s) then s else Send(s)
  }

  /** `handleKeyPress` as written: Enter without Shift calls the unguarded `handleSend`. */
  function KeyPress(s: State, key: string, shift: bool): (r: State)
    requires Consistent(s)
    ensures Consistent(r)
    ensures key == "Enter" && !shift ==> r == Send(s)
    ensures !(key == "Enter" && !shift) ==> r == s
  {
    if key == "Enter" && !shift then Send(s) else s
  }

  /** `handleKeyPress` with the send button's guard: Enter is ignored while a reply is loading. */
  function KeyPressSingleFlight(s: State, key: string, shift: bool): (r: State)
    requires Consistent(s)
    ensures Consistent(r) && (SingleFlight(s) ==> SingleFlight(r))
    ensures key == "Enter" && !shift && !s.isLoading ==> r == Send(s)
    ensures !(key == "Enter" && !shift) || s.isLoading ==> r == s
  {
    if key == "Enter" && !shift then SendSingleFlight(s) else s
  }

  /** `sendMessageStream` resolved for call `id`: append the empty model placeholder. */
  function StreamOpened(s: State, id: nat): (r: State)
    requires Consistent(s)
    ensures Consistent(r) && (SingleFlight(s) ==> SingleFlight(r))
    ensures id in s.exchanges && s.exchanges[id].phase == AwaitingStream ==>
      r.messages == s.messages + [Message(Model, "")] && r.exchanges == s.exchanges[id := Exchange(Streaming, "")]
    ensures !(id in s.exchanges && s.exchanges[id].phase == AwaitingStream) ==> r == s
    ensures r == s.(messages := r.messages, exchanges := r.exchanges)
  {
    if id in s.exchanges && s.exchanges[id].phase == AwaitingStream then
      s.(messages := s.messages + [Message(Model, "")], exchanges := s.exchanges[id := Exchange(Streaming, "")])
    else s
  }

  /**
   * One chunk of call `id`'s stream: a non-empty text extends the call's
   * `fullText`, which then overwrites the text of whatever entry is last,
   * keeping that entry's role. Nothing else in the transcript moves.
   */
  function ChunkArrived(s: State, id: nat, chunk: Option<string>): (r: State)
    requires Consistent(s)
    ensures Consistent(r) && (SingleFlight(s) ==> SingleFlight(r))
    ensures |r.messages| == |s.messages|
    ensures forall i :: 0 <= i < |s.messages| - 1 ==> r.messages[i] == s.messages[i]
    ensures Last(r.messages).role == Last(s.messages).role
    ensures id in s.exchanges && s.exchanges[id].phase == Streaming && ChunkText(chunk) != "" ==>
      && Last(r.messages).text == s.exchanges[id].fullText + ChunkText(chunk)
      && r.exchanges == s.exchanges[id := Exchange(Streaming, Last(r.messages).text)]
    ensures !(id in s.exchanges && s.exchanges[id].phase == Streaming && ChunkText(chunk) != "") ==> r == s
    ensures r == s.(messages := r.messages, exchanges := r.exchanges)
  {
    if id in s.exchanges && s.exchanges[id].phase == Streaming && ChunkText(chunk) != "" then
      var fullText := s.exchanges[id].fullText + ChunkText(chunk);
      var last := |s.messages| - 1;
      s.(messages := s.messages[last := s.messages[last].(text := fullText)],
         exchanges := s.exchanges[id := Exchange(Streaming, fullText)])
    else s
  }

  /** Call `id`'s `catch` and `finally`: append the fixed notice, keep what was streamed, stop loading. */
  function StreamFailed(s: State, id: nat): (r: State)
    requires Consistent(s)
    ensures Consistent(r) && (SingleFlight(s) ==> SingleFlight(r))
    ensures id in s.exchanges ==>
      r.messages == s.messages + [Message(Model, ErrorNotice)] && r.exchanges == s.exchanges - {id} && !r.isLoading
    ensures id !in s.exchanges ==> r == s
    ensures r == s.(messages := r.messages, exchanges := r.exchanges, isLoading := r.isLoading)
  {
    if id in s.exchanges then
      s.(messages := s.messages + [Message(Model, ErrorNotice)], exchanges := s.exchanges - {id}, isLoading := false)
    else s
  }

  /** The stream of call `id` is exhausted: its `finally` clears the loading flag. */
  function StreamEnded(s: State, id: nat): (r: State)
    requires Consistent(s)
    ensures Consistent(r) && (SingleFlight(s) ==> SingleFlight(r))
    ensures id in s.exchanges && s.exchanges[id].phase == Streaming ==>
      r.exchanges == s.exchanges - {id} && !r.isLoading
    ensures !(id in s.exchanges && s.exchanges[id].phase == Streaming) ==> r == s
    ensures r == s.(exchanges := r.exchanges, isLoading := r.isLoading)
  {
    if id in s.exchanges && s.exchanges[id].phase == Streaming then
      s.(exchanges := s.exchanges - {id}, isLoading := false)
    else s
  }

  /** Call `id`'s `for await` loop over the given chunks, one resumption per chunk. */
  function Chunks(s: State, id: nat, chunks: seq<Option<string>>): (r: State)
    requires Consistent(s)
    ensures Consistent(r)
  {
    if chunks == [] then s
    else ChunkArrived(Chunks(s, id, chunks[..|chunks| - 1]), id, chunks[|chunks| - 1])
  }

  /** The state of a streaming call after text `more` has been added to its running text and its placeholder. */
  function Accumulated(s: State, id: nat, more: string): State
    requires |s.messages| > 0 && id in s.exchanges
  {
    var text := s.exchanges[id].fullText + more;
    s.(messages := s.messages[|s.messages| - 1 := Message(Model, text)],
       exchanges := s.exchanges[id := Exchange(Streaming, text)])
  }

  /** Adding nothing to an up-to-date placeholder changes nothing. */
  lemma AccumulatedNothing(s: State, id: nat)
    requires |s.messages| > 0 && id in s.exchanges && s.exchanges[id].phase == Streaming
    requires Last(s.messages) == Message(Model, s.exchanges[id].fullText)
    ensures Accumulated(s, id, "") == s
  {
    var t := s.exchanges[id].fullText;
    assert t + "" == t;
    assert s.messages[|s.messages| - 1 := Message(Model, t)] == s.messages;
    assert s.exchanges[id := Exchange(Streaming, t)] == s.exchanges;
  }

  /** Adding `a` and then `b` is adding `a + b`. */
  lemma AccumulatedTwice(s: State, id: nat, a: string, b: string)
    requires |s.messages| > 0 && id in s.exchanges
    ensures Accumulated(Accumulated(s, id, a), id, b) == Accumulated(s, id, a + b)
  {
    var t := s.exchanges[id].fullText;
    assert t + a + b == t + (a + b);
    var last := |s.messages| - 1;
    var m := Message(Model, t + (a + b));
    assert s.messages[last := Message(Model, t + a)][last := m] == s.messages[last := m];
    var e := Exchange(Streaming, t + (a + b));
    assert s.exchanges[id := Exchange(Streaming, t + a)][id := e] == s.exchanges[id := e];
  }

  /** One chunk for a streaming call whose placeholder is last and up to date. */
  lemma ChunkExtends(s: State, id: nat, chunk: Option<string>)
    requires Consistent(s) && id in s.exchanges && s.exchanges[id].phase == Streaming
    requires Last(s.messages) == Message(Model, s.exchanges[id].fullText)
    ensures ChunkArrived(s, id, chunk) == Accumulated(s, id, ChunkText(chunk))
  {
    if ChunkText(chunk) == "" {
      AccumulatedNothing(s, id);
    }
  }

  /**
   * A streaming call whose placeholder is last and up to date keeps it so:
   * after the chunks the placeholder holds the running text followed by the
   * non-empty chunk texts, and nothing else has changed.
   */
  lemma {:induction false} ChunksAccumulate(s: State, id: nat, chunks: seq<Option<string>>)
    requires Consistent(s) && id in s.exchanges && s.exchanges[id].phase == Streaming
    requires Last(s.messages) == Message(Model, s.exchanges[id].fullText)
    ensures Chunks(s, id, chunks) == Accumulated(s, id, StreamText(chunks))
  {
    if chunks == [] {
      AccumulatedNothing(s, id);
    } else {
      var init, c := chunks[..|chunks| - 1], chunks[|chunks| - 1];
      ChunksAccumulate(s, id, init);
      var mid := Accumulated(s, id, StreamText(init));
      ChunkExtends(mid, id, c);
      AccumulatedTwice(s, id, StreamText(init), ChunkText(c));
    }
  }

  /**
   * One whole call of `handleSend` from the send button: the stream delivers
   * `chunks` and then ends as `outcome` says. A disabled button does nothing,
   * and the events of a call that never started are ignored.
   */
  function Exchanged(s: State, chunks: seq<Option<string>>, outcome: Outcome): (r: State)
    requires Consistent(s)
  {
    var id := s.nextExchange;
    var sent := ClickSend(s);
    match outcome
    case FailedBeforeStream => StreamFailed(sent, id)
    case Completed => StreamEnded(Chunks(StreamOpened(sent, id), id, chunks), id)
    case FailedAfter(k) =>
      StreamFailed(Chunks(StreamOpened(sent, id), id, chunks[..if k <= |chunks| then k else |chunks|]), id)
  }

  /** Chunks for a call that is not in flight change nothing. */
  lemma {:induction false} ChunksIgnored(s: State, id: nat, chunks: seq<Option<string>>)
    requires Consistent(s) && id !in s.exchanges
    ensures Chunks(s, id, chunks) == s
  {
    if chunks != [] {
      ChunksIgnored(s, id, chunks[..|chunks| - 1]);
    }
  }

  /** A call started from a quiet widget, after its stream opened and delivered `chunks`. */
  lemma StreamedFromQuiet(s: State, chunks: seq<Option<string>>)
    requires Consistent(s) && SingleFlight(s) && !s.isLoading
    requires !(SendDisabled(s) || s.session.None?)
    ensures var id := s.nextExchange;
      var r := Chunks(StreamOpened(ClickSend(s), id), id, chunks);
      && r.messages == s.messages + [Message(User, s.input), Message(Model, StreamText(chunks))]
      && r.exchanges == map[id := Exchange(Streaming, StreamText(chunks))]
      && r.input == "" && SingleFlight(r)
  {
    var id := s.nextExchange;
    StartedFromQuiet(s);
    var started := SentState(s).(messages := s.messages + [Message(User, s.input), Message(Model, "")],
                                 exchanges := map[id := Exchange(Streaming, "")]);
    ChunksAccumulate(started, id, chunks);
    assert "" + StreamText(chunks) == StreamText(chunks);
  }

  /** From a quiet widget, the send button and the opened stream leave the user message and an empty placeholder. */
  lemma StartedFromQuiet(s: State)
    requires Consistent(s) && SingleFlight(s) && !s.isLoading
    requires !(SendDisabled(s) || s.session.None?)
    ensures StreamOpened(ClickSend(s), s.nextExchange)
         == SentState(s).(messages := s.messages + [Message(User, s.input), Message(Model, "")],
                          exchanges := map[s.nextExchange := Exchange(Streaming, "")])
  {
    assert s.exchanges == map[];
    SendAppends(s);
    assert ClickSend(s) == SentState(s);
  }

  /** A disabled send button, or a missing session, makes the whole exchange a no-op. */
  lemma ExchangeIgnored(s: State, chunks: seq<Option<string>>, outcome: Outcome)
    requires Consistent(s) && (SendDisabled(s) || s.session.None?)
    ensures Exchanged(s, chunks, outcome) == s
  {
    var id := s.nextExchange;
    assert ClickSend(s) == s && id !in s.exchanges;
    ChunksIgnored(s, id, chunks);
    ChunksIgnored(s, id, chunks[..if outcome.FailedAfter? && outcome.chunks <= |chunks| then outcome.chunks else |chunks|]);
  }

  /** A stream that runs to its end leaves the user's message and the concatenated reply, and stops loading. */
  lemma ExchangeCompleted(s: State, chunks: seq<Option<string>>)
    requires Consistent(s) && SingleFlight(s) && !s.isLoading && !(SendDisabled(s) || s.session.None?)
    ensures var r := Exchanged(s, chunks, Completed);
      && r.messages == s.messages + [Message(User, s.input), Message(Model, StreamText(chunks))]
      && r.input == "" && !r.isLoading && r.exchanges == s.exchanges && SingleFlight(r)
  {
    var id := s.nextExchange;
    StreamedFromQuiet(s, chunks);
    var streamed := Chunks(StreamOpened(ClickSend(s), id), id, chunks);
    assert Exchanged(s, chunks, Completed) == StreamEnded(streamed, id);
    assert id in streamed.exchanges && streamed.exchanges[id].phase == Streaming;
    assert s.exchanges == map[] && streamed.exchanges - {id} == map[];
  }

  /** A rejected `sendMessageStream` leaves the user's message and the error notice, and stops loading. */
  lemma ExchangeRejected(s: State, chunks: seq<Option<string>>)
    requires Consistent(s) && SingleFlight(s) && !s.isLoading && !(SendDisabled(s) || s.session.None?)
    ensures var r := Exchanged(s, chunks, FailedBeforeStream);
      && r.messages == s.messages + [Message(User, s.input), Message(Model, ErrorNotice)]
      && r.input == "" && !r.isLoading && r.exchanges == s.exchanges && SingleFlight(r)
  {
    assert s.exchanges == map[];
  }

  /** A call started from a quiet widget whose stream breaks after delivering `delivered`. */
  lemma BrokenAfterStreamed(s: State, delivered: seq<Option<string>>)
    requires Consistent(s) && SingleFlight(s) && !s.isLoading && !(SendDisabled(s) || s.session.None?)
    ensures var id := s.nextExchange;
      var r := StreamFailed(Chunks(StreamOpened(ClickSend(s), id), id, delivered), id);
      && r.messages == s.messages + [Message(User, s.input), Message(Model, StreamText(delivered)), Message(Model, ErrorNotice)]
      && r.input == "" && !r.isLoading && r.exchanges == s.exchanges && SingleFlight(r)
  {
    var id := s.nextExchange;
    StreamedFromQuiet(s, delivered);
    var streamed := Chunks(StreamOpened(ClickSend(s), id), id, delivered);
    assert id in streamed.exchanges;
    assert streamed.messages + [Message(Model, ErrorNotice)]
        == s.messages + [Message(User, s.input), Message(Model, StreamText(delivered)), Message(Model, ErrorNotice)];
    assert s.exchanges == map[] && streamed.exchanges - {id} == map[];
  }

  /**
   * A stream that raises after `k` chunks keeps the user's message and the
   * partial reply, then appends the error notice, and stops loading.
   */
  lemma ExchangeBroken(s: State, chunks: seq<Option<string>>, k: nat)
    requires Consistent(s) && SingleFlight(s) && !s.isLoading && !(SendDisabled(s) || s.session.None?)
    ensures var r := Exchanged(s, chunks, FailedAfter(k));
      var delivered := chunks[..if k <= |chunks| then k else |chunks|];
      && r.messages == s.messages + [Message(User, s.input), Message(Model, StreamText(delivered)), Message(Model, ErrorNotice)]
      && r.input == "" && !r.isLoading && r.exchanges == s.exchanges && SingleFlight(r)
  {
    BrokenAfterStreamed(s, chunks[..if k <= |chunks| then k else |chunks|]);
    ExchangedFailedAfter(s, chunks, k);
  }

  /** A broken exchange is the failure of a stream that delivered its first `k` chunks. */
  lemma ExchangedFailedAfter(s: State, chunks: seq<Option<string>>, k: nat)
    requires Consistent(s)
    ensures var id := s.nextExchange;
      Exchanged(s, chunks, FailedAfter(k))
      == StreamFailed(Chunks(StreamOpened(ClickSend(s), id), id, chunks[..if k <= |chunks| then k else |chunks|]), id)
  {
  }

  /** The first question, typed into a freshly opened widget and sent with Enter, awaits its stream. */
  lemma FirstQuestionAsked(first: string)
    requires !IsBlank(first)
    ensures var asked := State(true, true, [Message(Model, Greeting), Message(User, first)], "", true, Some(Session(0)),
                               map[0 := Exchange(AwaitingStream, "")], 1);
      && KeyPress(SetInput(ClickOpen(Initial(true), Session(0)), first), "Enter", false) == asked
      && KeyPressSingleFlight(SetInput(ClickOpen(Initial(true), Session(0)), first), "Enter", false) == asked
  {
    var typed := SetInput(ClickOpen(Initial(true), Session(0)), first);
    assert typed == State(true, true, [Message(Model, Greeting)], first, false, Some(Session(0)), map[], 0);
    SendAppends(typed);
  }

  /** Enter pressed again, without the guard, once the first reply's stream has opened. */
  lemma SecondQuestionAsked(first: string, second: string)
    requires !IsBlank(first) && !IsBlank(second)
    ensures var asked := KeyPress(SetInput(ClickOpen(Initial(true), Session(0)), first), "Enter", false);
      var again := KeyPress(SetInput(StreamOpened(asked, 0), second), "Enter", false);
      && again.messages == [Message(Model, Greeting), Message(User, first), Message(Model, ""), Message(User, second)]
      && again.exchanges == map[0 := Exchange(Streaming, ""), 1 := Exchange(AwaitingStream, "")]
      && Consistent(again)
  {
    FirstQuestionAsked(first);
    var asked := KeyPress(SetInput(ClickOpen(Initial(true), Session(0)), first), "Enter", false);
    var retyped := SetInput(StreamOpened(asked, 0), second);
    assert retyped.messages == [Message(Model, Greeting), Message(User, first), Message(Model, "")];
    SendAppends(retyped);
  }

  /**
   * Without a loading guard on the Enter key, a second question asked while
   * the first reply streams becomes the last entry, and the first stream's
   * next chunk overwrites it: a user-role entry ends up holding model text,
   * and the first reply's placeholder stays empty.
   */
  lemma OverlappingSendsOverwriteUserMessage(first: string, second: string, chunk: string)
    requires !IsBlank(first) && !IsBlank(second) && chunk != ""
    ensures var asked := KeyPress(SetInput(ClickOpen(Initial(true), Session(0)), first), "Enter", false);
      var again := KeyPress(SetInput(StreamOpened(asked, 0), second), "Enter", false);
      var r := ChunkArrived(again, 0, Some(chunk));
      r.messages == [Message(Model, Greeting), Message(User, first), Message(Model, ""), Message(User, chunk)]
      && !SingleFlight(again)
  {
    SecondQuestionAsked(first, second);
    var asked := KeyPress(SetInput(ClickOpen(Initial(true), Session(0)), first), "Enter", false);
    var again := KeyPress(SetInput(StreamOpened(asked, 0), second), "Enter", false);
    assert 0 in again.exchanges && 1 in again.exchanges;
    assert "" + chunk == chunk;
  }

  /** With the guard, the same keystrokes leave the second question in the input and the chunk reaches the placeholder. */
  lemma OverlappingSendsGuarded(first: string, second: string, chunk: string)
    requires !IsBlank(first) && !IsBlank(second) && chunk != ""
    ensures var asked := KeyPressSingleFlight(SetInput(ClickOpen(Initial(true), Session(0)), first), "Enter", false);
      var again := KeyPressSingleFlight(SetInput(StreamOpened(asked, 0), second), "Enter", false);
      var r := ChunkArrived(again, 0, Some(chunk));
      r.messages == [Message(Model, Greeting), Message(User, first), Message(Model, chunk)]
      && r.input == second && SingleFlight(r)
  {
    FirstQuestionAsked(first);
    var asked := KeyPressSingleFlight(SetInput(ClickOpen(Initial(true), Session(0)), first), "Enter", false);
    var streaming := StreamOpened(asked, 0);
    assert streaming == asked.(messages := [Message(Model, Greeting), Message(User, first), Message(Model, "")],
                               exchanges := map[0 := Exchange(Streaming, "")]);
    assert KeyPressSingleFlight(SetInput(streaming, second), "Enter", false) == streaming.(input := second);
    assert "" + chunk == chunk;
  }
}
