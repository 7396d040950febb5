/** `gerarParte` on its live branch (the Gemini branch is switched off by a constant):
    open a streamed completion, append the text of every `content_block_delta` event that
    carries text, clean the accumulated text with `limparRetorno`, and turn any exception
    into a fixed HTML comment. The model service is a collaborator: the events it streams,
    and where it fails, are given by the caller. */
module Generation {
  import opened JsStrings
  import opened Fences

  /** What `gerarParte` returns when anything throws. */
  const ErrorComment := "<!-- Erro ao gerar conteúdo -->"

  const TextDeltaType := "content_block_delta"

  /** One streamed event: its `type` and its `delta.text`, absent when the event has none. */
  datatype StreamEvent = StreamEvent(kind: string, text: Option<string>)

  /** One step of the `for await` loop: the next event, or an exception from the stream. */
  datatype StreamItem = Event(event: StreamEvent) | Abort

  /** The streaming call either throws at once or yields items. */
  datatype Stream = OpenFails | Opened(items: seq<StreamItem>)

  /** A `content_block_delta` event whose delta carries a non-empty text (an empty text is
      falsy, so it is skipped like a missing one). */
  predicate IsTextDelta(e: StreamEvent) {
    e.kind == TextDeltaType && e.text.Some? && e.text.value != ""
  }

  /** What one item adds to the accumulated html. */
  function ChunkOf(item: StreamItem): string {
    if item.Event? && IsTextDelta(item.event) then item.event.text.value else ""
  }

  /** The in-order concatenation of the text chunks among `items`. */
  function Collected(items: seq<StreamItem>): string {
    if items == [] then "" else ChunkOf(items[0]) + Collected(items[1..])
  }

  predicate NoAbort(items: seq<StreamItem>) {
    forall k :: 0 <= k < |items| ==> !items[k].Abort?
  }

  /** The value `gerarParte` resolves to. */
  function Generated(stream: Stream): string {
    match stream
    case OpenFails => ErrorComment
    case Opened(items) =>
      if NoAbort(items) then LimparRetorno(Collected(items)) else ErrorComment
  }

  /** Collecting distributes over concatenation: chunks keep their stream order. */
  lemma {:induction false} CollectedAppend(a: seq<StreamItem>, b: seq<StreamItem>)
    ensures Collected(a + b) == Collected(a) + Collected(b)
  {
    if a == [] {
      assert a + b == b;
    } else {
      assert (a + b)[1..] == a[1..] + b;
      CollectedAppend(a[1..], b);
    }
  }

  /** An event that is not a text delta contributes nothing, wherever it stands. */
  lemma OtherEventIgnored(a: seq<StreamItem>, e: StreamEvent, b: seq<StreamItem>)
    requires !IsTextDelta(e)
    ensures Collected(a + [Event(e)] + b) == Collected(a + b)
  {
    CollectedAppend(a + [Event(e)], b);
    CollectedAppend(a, [Event(e)]);
    CollectedAppend(a, b);
  }

  /** The texts of consecutive text deltas are concatenated in order. */
  lemma {:induction false} CollectedTexts(texts: seq<string>)
    ensures Collected(seq(|texts|, k requires 0 <= k < |texts| => Event(StreamEvent(TextDeltaType, Some(texts[k])))))
         == Concat(texts)
  {
    if texts != [] {
      var items := seq(|texts|, k requires 0 <= k < |texts| => Event(StreamEvent(TextDeltaType, Some(texts[k]))));
      var rest := seq(|texts| - 1, k requires 0 <= k < |texts| - 1 => Event(StreamEvent(TextDeltaType, Some(texts[1..][k]))));
      assert items[1..] == rest;
      // an empty text is skipped, which adds the same "" that concatenating it would
      assert ChunkOf(items[0]) == texts[0];
      CollectedTexts(texts[1..]);
    }
  }

  function Concat(texts: seq<string>): string {
    if texts == [] then "" else texts[0] + Concat(texts[1..])
  }

  /** Whatever the stream does, the result is clean: no "```", no surrounding whitespace. */
  lemma GeneratedIsClean(stream: Stream)
    ensures NoFence(Generated(stream)) && IsTrimmed(Generated(stream))
  {
    match stream
    case OpenFails => ErrorCommentIsClean();
    case Opened(items) =>
      if !NoAbort(items) {
        ErrorCommentIsClean();
      }
  }

  lemma ErrorCommentIsClean()
    ensures NoFence(ErrorComment) && IsTrimmed(ErrorComment)
  {
    assert forall i :: 0 <= i < |ErrorComment| ==> ErrorComment[i] != '`';
  }

  /** An exception anywhere in the stream discards everything received before it. */
  lemma AbortDiscardsChunks(before: seq<StreamItem>, after: seq<StreamItem>)
    ensures Generated(Opened(before + [Abort] + after)) == ErrorComment
  {
    var items := before + [Abort] + after;
    assert items[|before|].Abort?;
  }

  /** The `for await` loop of `gerarParte`, with its `try`/`catch`. It never throws. */
  method GerarParte(stream: Stream) returns (html: string)
    ensures html == Generated(stream)
  {
    if stream.OpenFails? {
      return ErrorComment;
    }
    var items := stream.items;
    var acc := "";
    var i := 0;
    while i < |items|
      invariant 0 <= i <= |items|
      invariant NoAbort(items[..i])
      invariant acc == Collected(items[..i])
    {
      var item := items[i];
      if item.Abort? {
        assert !NoAbort(items) by { assert items[i].Abort?; }
        return ErrorComment;
      }
      if IsTextDelta(item.event) {
        acc := acc + item.event.text.value;
      }
      CollectedAppend(items[..i], [item]);
      assert items[..i + 1] == items[..i] + [item];
      i := i + 1;
    }
    assert items[..i] == items;
    html := LimparRetorno(acc);
  }
}
