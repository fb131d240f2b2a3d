/**
 * The chat widget as the component holds it: its state cells as fields and
 * each handler or resumption as a method whose new state is the matching
 * transition of the `Chat` model.
 */
module ChatWidget {
  import opened Wrappers
  import opened Text
  import opened Chat

  class Widget {
    const apiKeyPresent: bool
    var isOpen: bool
    var messages: seq<Message>
    var input: string
    var isLoading: bool
    var session: Option<Session>
    var exchanges: map<nat, Exchange>
    var nextExchange: nat

    function Snapshot(): State
      reads this
    {
      State(apiKeyPresent, isOpen, messages, input, isLoading, session, exchanges, nextExchange)
    }

    ghost predicate Valid()
      reads this
    {
      Consistent(Snapshot())
    }

    constructor (apiKeyPresent: bool)
      ensures Valid() && Snapshot() == Initial(apiKeyPresent)
    {
      this.apiKeyPresent := apiKeyPresent;
      isOpen := false;
      messages := [Message(Model, Greeting)];
      input := "";
      isLoading := false;
      session := None;
      exchanges := map[];
      nextExchange := 0;
    }

    method ClickOpen(handle: Session)
      requires Valid()
      modifies this
      ensures Valid() && Snapshot() == Chat.ClickOpen(old(Snapshot()), handle)
    {
      if !apiKeyPresent || isOpen {
        return;
      }
      isOpen := true;
      if session.None? {
        session := Chat.CreateChatSession(apiKeyPresent, handle);
      }
    }

    method ClickClose()
      requires Valid()
      modifies this
      ensures Valid() && Snapshot() == Chat.ClickClose(old(Snapshot()))
    {
      isOpen := false;
    }

    method SetInput(text: string)
      requires Valid()
      modifies this
      ensures Valid() && Snapshot() == Chat.SetInput(old(Snapshot()), text)
    {
      input := text;
    }

    /** `handleSend` up to its first `await`. */
    method Send()
      requires Valid()
      modifies this
      ensures Valid() && Snapshot() == Chat.Send(old(Snapshot()))
    {
      ghost var before := Snapshot();
      if IsBlank(input) || session.None? {
        SendBlocked(before);
        return;
      }
      messages, input, isLoading := messages + [Message(User, input)], "", true;
      exchanges, nextExchange := exchanges[nextExchange := Exchange(AwaitingStream, "")], nextExchange + 1;
      assert Snapshot() == SentState(before);
      SendAppends(before);
    }

    method ClickSend()
      requires Valid()
      modifies this
      ensures Valid() && Snapshot() == Chat.ClickSend(old(Snapshot()))
    {
      if isLoading || IsBlank(input) {
        return;
      }
      Send();
    }

    method KeyPress(key: string, shift: bool)
      requires Valid()
      modifies this
      ensures Valid() && Snapshot() == Chat.KeyPress(old(Snapshot()), key, shift)
    {
      if key == "Enter" && !shift {
        Send();
      }
    }

    method StreamOpened(id: nat)
      requires Valid()
      modifies this
      ensures Valid() && Snapshot() == Chat.StreamOpened(old(Snapshot()), id)
    {
      if id !in exchanges || exchanges[id].phase != AwaitingStream {
        return;
      }
      messages := messages + [Message(Model, "")];
      exchanges := exchanges[id := Exchange(Streaming, "")];
    }

    /** `fullText += c.text` and the in-place write of the last entry's text. */
    method ChunkArrived(id: nat, chunk: Option<string>)
      requires Valid()
      modifies this
      ensures Valid() && Snapshot() == Chat.ChunkArrived(old(Snapshot()), id, chunk)
    {
      if id !in exchanges || exchanges[id].phase != Streaming {
        return;
      }
      var text := ChunkText(chunk);
      if text != "" {
        var fullText := exchanges[id].fullText + text;
        exchanges := exchanges[id := Exchange(Streaming, fullText)];
        var last := |messages| - 1;
        messages := messages[last := messages[last].(text := fullText)];
      }
    }

    method StreamFailed(id: nat)
      requires Valid()
      modifies this
      ensures Valid() && Snapshot() == Chat.StreamFailed(old(Snapshot()), id)
    {
      if id !in exchanges {
        return;
      }
      messages := messages + [Message(Model, ErrorNotice)];
      exchanges := exchanges - {id};
      isLoading := false;
    }

    method StreamEnded(id: nat)
      requires Valid()
      modifies this
      ensures Valid() && Snapshot() == Chat.StreamEnded(old(Snapshot()), id)
    {
      if id !in exchanges || exchanges[id].phase != Streaming {
        return;
      }
      exchanges := exchanges - {id};
      isLoading := false;
    }
  }

  /**
   * Drives one whole exchange through the send button, its `for await` loop
   * resuming once per chunk: the widget ends in `Exchanged` of where it
   * started, whose transcript the `Exchange…` lemmas of `Chat` describe per outcome.
   */
  method Converse(w: Widget, chunks: seq<Option<string>>, outcome: Outcome)
    requires w.Valid()
    modifies w
    ensures w.Valid() && w.Snapshot() == Exchanged(old(w.Snapshot()), chunks, outcome)
  {
    var id := w.nextExchange;
    w.ClickSend();
    if outcome == FailedBeforeStream {
      w.StreamFailed(id);
      return;
    }
    w.StreamOpened(id);
    ghost var started := w.Snapshot();
    var n := if outcome.FailedAfter? && outcome.chunks <= |chunks| then outcome.chunks else |chunks|;
    for i := 0 to n
      invariant w.Valid() && w.Snapshot() == Chunks(started, id, chunks[..i])
    {
      assert chunks[..i + 1][..i] == chunks[..i];
      w.ChunkArrived(id, chunks[i]);
    }
    assert chunks[..|chunks|] == chunks;
    if outcome.FailedAfter? {
      w.StreamFailed(id);
    } else {
      w.StreamEnded(id);
    }
  }
}
