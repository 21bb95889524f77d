/**
 The streamed model call of `bridge.rs`: a resumable step that reads chunks and
 hands out one event at a time, and `collect_model_stream` of the model client,
 which puts a response together again. `K` is the aggregated tool calls, `D` a
 chunk's share of them; how a share is merged in is a parameter.
 */
module ModelStream {
  import opened Basics

  datatype Usage = Usage(prompt: nat, completion: nat, total: nat)

  datatype Chunk<D> = Chunk(usage: Option<Usage>, reasoning: Option<string>, content: Option<string>, calls: D)

  datatype Response<K> = Response(text: Option<string>, calls: K, usage: Option<Usage>)

  datatype Event<K> =
    | UsageEvent(usage: Usage)
    | ReasoningDelta(text: string)
    | TextDelta(text: string)
    | ToolCallEvent(call: K)
    | Completed(response: Response<K>)

  type Item<D> = Result<Chunk<D>, string>
  type Output<K> = Result<Event<K>, string>

  // ----- what a whole chunk sequence stands for -----

  function OrElse<T>(a: Option<T>, b: Option<T>): Option<T> {
    if a.Some? then a else b
  }

  /** The events of one chunk: the first usage of the stream, then reasoning, then text. */
  function ChunkEvents<K, D>(chunk: Chunk<D>, firstUsage: bool): seq<Event<K>> {
    (if firstUsage && chunk.usage.Some? then [UsageEvent(chunk.usage.value)] else []) +
    (if chunk.reasoning.Some? then [ReasoningDelta(chunk.reasoning.value)] else []) +
    (if chunk.content.Some? then [TextDelta(chunk.content.value)] else [])
  }

  function Outputs<K>(events: seq<Event<K>>): seq<Output<K>> {
    seq(|events|, i requires 0 <= i < |events| => Ok(events[i]))
  }

  lemma OutputsHead<K>(events: seq<Event<K>>, rest: seq<Output<K>>)
    requires events != []
    ensures (Outputs(events) + rest)[0] == Ok(events[0])
    ensures (Outputs(events) + rest)[1..] == Outputs(events[1..]) + rest
  {
  }

  /** Everything read so far from the chunks of a stream. */
  datatype Progress<K> = Progress(text: string, calls: K, usage: Option<Usage>)

  function Advance<K, D>(p: Progress<K>, chunk: Chunk<D>, merge: (K, D) -> K): Progress<K> {
    Progress(p.text + (if chunk.content.Some? then chunk.content.value else ""),
             merge(p.calls, chunk.calls), OrElse(chunk.usage, p.usage))
  }

  function Finish<K>(p: Progress<K>): Event<K> {
    Completed(Response(if p.text == "" then None else Some(p.text), p.calls, p.usage))
  }

  /** The batch reading: all events of the chunks, then the response or the first error. */
  function Batch<K, D>(items: seq<Item<D>>, p: Progress<K>, merge: (K, D) -> K): seq<Output<K>> {
    if items == [] then [Ok(Finish(p))]
    else match items[0]
      case Err(e) => [Err(e)]
      case Ok(chunk) =>
        Outputs(ChunkEvents(chunk, p.usage.None?)) + Batch(items[1..], Advance(p, chunk, merge), merge)
  }

  lemma BatchStep<K, D>(items: seq<Item<D>>, chunk: Chunk<D>, p: Progress<K>, merge: (K, D) -> K)
    requires items != [] && items[0] == Ok(chunk)
    ensures Batch(items, p, merge) ==
            Outputs(ChunkEvents(chunk, p.usage.None?)) + Batch(items[1..], Advance(p, chunk, merge), merge)
  {
  }

  lemma NoOutputs<K>()
    ensures Outputs<K>([]) == []
  {
  }

  // ----- the resumable step -----

  class StreamState<K, D> {
    var done: bool
    var inner: seq<Item<D>>
    var text: string
    var calls: K
    var usage: Option<Usage>
    var pending: seq<Event<K>>
    const merge: (K, D) -> K

    constructor (items: seq<Item<D>>, noCalls: K, merge: (K, D) -> K)
      ensures this.merge == merge
      ensures Remaining() == Batch(items, Progress("", noCalls, None), merge)
    {
      done, inner, text, calls, usage, pending := false, items, "", noCalls, None, [];
      this.merge := merge;
      new;
      assert Outputs(pending) == [];
    }

    /** What the stream will still hand out. */
    ghost function Remaining(): seq<Output<K>>
      reads this
    {
      if done then [] else Outputs(pending) + Batch(inner, Progress(text, calls, usage), merge)
    }

    method Pop() returns (event: Event<K>)
      requires !done && pending != []
      modifies this
      ensures Remaining() == old(Remaining())[1..] && old(Remaining())[0] == Ok(event)
      ensures !done && inner == old(inner)
    {
      event := pending[0];
      OutputsHead(pending, Batch(inner, Progress(text, calls, usage), merge));
      pending := pending[1..];
    }

    /** Takes one chunk in: its events are queued, its parts are accumulated. */
    method Absorb(chunk: Chunk<D>)
      requires !done && pending == [] && inner != [] && inner[0] == Ok(chunk)
      modifies this
      ensures !done && inner == old(inner)[1..] && Remaining() == old(Remaining())
    {
      hide Batch, Outputs;
      ghost var p := Progress(text, calls, usage);
      BatchStep(inner, chunk, p, merge);
      inner := inner[1..];
      calls := merge(calls, chunk.calls);
      if chunk.usage.Some? {
        if usage.None? {
          pending := pending + [UsageEvent(chunk.usage.value)];
        }
        usage := chunk.usage;
      }
      if chunk.reasoning.Some? {
        pending := pending + [ReasoningDelta(chunk.reasoning.value)];
      }
      if chunk.content.Some? {
        text := text + chunk.content.value;
        pending := pending + [TextDelta(chunk.content.value)];
      }
      assert pending == ChunkEvents(chunk, p.usage.None?);
      assert Progress(text, calls, usage) == Advance(p, chunk, merge);
      NoOutputs<K>();
    }

    /** One step: the first output that is still due, or the end, which is final. */
    method Next() returns (output: Option<Output<K>>)
      modifies this
      ensures old(Remaining()) == [] ==> output.None? && Remaining() == []
      ensures old(Remaining()) != [] ==>
                output == Some(old(Remaining())[0]) && Remaining() == old(Remaining())[1..]
    {
      if done {
        return None;
      }
      ghost var due := Remaining();
      while pending == []
        invariant !done && Remaining() == due
        decreases |inner|
      {
        if inner == [] {
          var event := Finish(Progress(text, calls, usage));
          done := true;
          assert due == [Ok(event)];
          return Some(Ok(event));
        }
        match inner[0] {
          case Err(e) =>
            done := true;
            assert due == [Err(e)];
            return Some(Err(e));
          case Ok(chunk) =>
            Absorb(chunk);
        }
      }
      var event := Pop();
      return Some(Ok(event));
    }
  }

  lemma TakeHead<T>(out: seq<T>, due: seq<T>, x: T, rest: seq<T>)
    requires due != [] && due[0] == x && due[1..] == rest
    ensures (out + [x]) + rest == out + due
  {
    assert due == [x] + rest;
    Shift(out, x, rest);
  }

  /** Reading the stream to its end gives exactly the batch. */
  method Drain<K, D>(items: seq<Item<D>>, noCalls: K, merge: (K, D) -> K) returns (out: seq<Output<K>>)
    ensures out == Batch(items, Progress("", noCalls, None), merge)
  {
    hide Batch;
    var stream := new StreamState<K, D>(items, noCalls, merge);
    out := [];
    ghost var all := stream.Remaining();
    var more := true;
    while more
      invariant out + stream.Remaining() == all
      invariant !more ==> stream.Remaining() == []
      decreases |stream.Remaining()| + if more then 1 else 0
    {
      ghost var due := stream.Remaining();
      var next := stream.Next();
      if next.Some? {
        TakeHead(out, due, next.value, stream.Remaining());
        out := out + [next.value];
      } else {
        more := false;
      }
    }
  }

  // ----- what the batch says about the stream -----

  /** The chunks before the first error. */
  function GoodChunks<D>(items: seq<Item<D>>): seq<Chunk<D>> {
    if items == [] || items[0].Err? then [] else [items[0].value] + GoodChunks(items[1..])
  }

  function FirstError<D>(items: seq<Item<D>>): Option<string> {
    if items == [] then None
    else if items[0].Err? then Some(items[0].error)
    else FirstError(items[1..])
  }

  /** What `part` finds in each element, put together in order. */
  function Gather<X, T>(xs: seq<X>, part: X -> seq<T>): seq<T> {
    if xs == [] then [] else part(xs[0]) + Gather(xs[1..], part)
  }

  lemma {:induction false} GatherConcat<X, T>(a: seq<X>, b: seq<X>, part: X -> seq<T>)
    ensures Gather(a + b, part) == Gather(a, part) + Gather(b, part)
  {
    if a == [] {
      assert a + b == b;
    } else {
      GatherConcat(a[1..], b, part);
      assert (a + b)[1..] == a[1..] + b;
    }
  }

  lemma GatherOne<X, T>(x: X, part: X -> seq<T>)
    ensures Gather([x], part) == part(x)
  {
    assert [x][1..] == [];
  }

  function TextOf<K>(o: Output<K>): string {
    if o.Ok? && o.value.TextDelta? then o.value.text else ""
  }

  function ReasoningOf<K>(o: Output<K>): string {
    if o.Ok? && o.value.ReasoningDelta? then o.value.text else ""
  }

  function UsageOf<K>(o: Output<K>): seq<Usage> {
    if o.Ok? && o.value.UsageEvent? then [o.value.usage] else []
  }

  function ContentOf<D>(chunk: Chunk<D>): string {
    if chunk.content.Some? then chunk.content.value else ""
  }

  function ThoughtOf<D>(chunk: Chunk<D>): string {
    if chunk.reasoning.Some? then chunk.reasoning.value else ""
  }

  function Texts<K>(out: seq<Output<K>>): string {
    Gather(out, (o: Output<K>) => TextOf(o))
  }

  function Reasonings<K>(out: seq<Output<K>>): string {
    Gather(out, (o: Output<K>) => ReasoningOf(o))
  }

  function UsageEvents<K>(out: seq<Output<K>>): seq<Usage> {
    Gather(out, (o: Output<K>) => UsageOf(o))
  }

  function Content<D>(chunks: seq<Chunk<D>>): string {
    Gather(chunks, (c: Chunk<D>) => ContentOf(c))
  }

  function Thoughts<D>(chunks: seq<Chunk<D>>): string {
    Gather(chunks, (c: Chunk<D>) => ThoughtOf(c))
  }

  function FirstUsage<D>(chunks: seq<Chunk<D>>): Option<Usage> {
    if chunks == [] then None else OrElse(chunks[0].usage, FirstUsage(chunks[1..]))
  }

  function LastUsage<D>(chunks: seq<Chunk<D>>): Option<Usage> {
    if chunks == [] then None else OrElse(LastUsage(chunks[1..]), chunks[0].usage)
  }

  function MergeAll<K, D>(calls: K, chunks: seq<Chunk<D>>, merge: (K, D) -> K): K {
    if chunks == [] then calls else MergeAll(merge(calls, chunks[0].calls), chunks[1..], merge)
  }

  predicate IsEnd<K>(o: Output<K>) {
    o.Err? || o.value.Completed?
  }

  /** What the parts of one chunk's events are, whatever is gathered from them. */
  lemma GatherChunk<K, D, T>(chunk: Chunk<D>, firstUsage: bool, part: Output<K> -> seq<T>)
    ensures Gather(Outputs(ChunkEvents(chunk, firstUsage)), part) ==
            (if firstUsage && chunk.usage.Some? then part(Ok(UsageEvent(chunk.usage.value))) else [])
            + (if chunk.reasoning.Some? then part(Ok(ReasoningDelta(chunk.reasoning.value))) else [])
            + (if chunk.content.Some? then part(Ok(TextDelta(chunk.content.value))) else [])
  {
    var u: seq<Output<K>> := if firstUsage && chunk.usage.Some? then [Ok(UsageEvent(chunk.usage.value))] else [];
    var r: seq<Output<K>> := if chunk.reasoning.Some? then [Ok(ReasoningDelta(chunk.reasoning.value))] else [];
    var t: seq<Output<K>> := if chunk.content.Some? then [Ok(TextDelta(chunk.content.value))] else [];
    assert Outputs<K>(ChunkEvents(chunk, firstUsage)) == u + r + t;
    GatherConcat(u + r, t, part);
    GatherConcat(u, r, part);
    if u != [] { GatherOne(u[0], part); }
    if r != [] { GatherOne(r[0], part); }
    if t != [] { GatherOne(t[0], part); }
  }

  /** Whatever each chunk's events carry of a part, the stream carries of all its chunks. */
  lemma {:induction false} BatchGathers<K, D, T>(items: seq<Item<D>>, p: Progress<K>, merge: (K, D) -> K,
                                                 part: Output<K> -> seq<T>, share: Chunk<D> -> seq<T>)
    requires forall o :: IsEnd(o) ==> part(o) == []
    requires forall c, f :: Gather(Outputs(ChunkEvents(c, f)), part) == share(c)
    ensures Gather(Batch(items, p, merge), part) == Gather(GoodChunks(items), share)
  {
    var out := Batch(items, p, merge);
    if items == [] || items[0].Err? {
      GatherOne(out[0], part);
    } else {
      var chunk := items[0].value;
      var q := Advance(p, chunk, merge);
      BatchGathers(items[1..], q, merge, part, share);
      GatherConcat(Outputs(ChunkEvents(chunk, p.usage.None?)), Batch(items[1..], q, merge), part);
      assert GoodChunks(items)[1..] == GoodChunks(items[1..]);
    }
  }

  lemma BatchTexts<K, D>(items: seq<Item<D>>, p: Progress<K>, merge: (K, D) -> K)
    ensures Texts(Batch(items, p, merge)) == Content(GoodChunks(items))
    ensures Reasonings(Batch(items, p, merge)) == Thoughts(GoodChunks(items))
  {
    var text, thought := (o: Output<K>) => TextOf(o), (o: Output<K>) => ReasoningOf(o);
    forall c: Chunk<D>, f ensures Gather(Outputs(ChunkEvents<K, D>(c, f)), text) == ContentOf(c) {
      GatherChunk(c, f, text);
    }
    forall c: Chunk<D>, f ensures Gather(Outputs(ChunkEvents<K, D>(c, f)), thought) == ThoughtOf(c) {
      GatherChunk(c, f, thought);
    }
    BatchGathers(items, p, merge, text, (c: Chunk<D>) => ContentOf(c));
    BatchGathers(items, p, merge, thought, (c: Chunk<D>) => ThoughtOf(c));
  }

  /** Usage is announced once, with the first report. */
  lemma {:induction false} BatchUsage<K, D>(items: seq<Item<D>>, p: Progress<K>, merge: (K, D) -> K)
    ensures var first := FirstUsage(GoodChunks(items));
            UsageEvents(Batch(items, p, merge)) ==
            if p.usage.None? && first.Some? then [first.value] else []
  {
    var usage := (o: Output<K>) => UsageOf(o);
    var out := Batch(items, p, merge);
    if items == [] || items[0].Err? {
      GatherOne(out[0], usage);
    } else {
      var chunk := items[0].value;
      var q := Advance(p, chunk, merge);
      BatchUsage(items[1..], q, merge);
      GatherChunk(chunk, p.usage.None?, usage);
      GatherConcat(Outputs(ChunkEvents(chunk, p.usage.None?)), Batch(items[1..], q, merge), usage);
      assert GoodChunks(items)[1..] == GoodChunks(items[1..]);
    }
  }

  lemma ChunkEventsGoOn<K, D>(chunk: Chunk<D>, firstUsage: bool)
    ensures forall i :: 0 <= i < |ChunkEvents<K, D>(chunk, firstUsage)| ==>
              !ChunkEvents<K, D>(chunk, firstUsage)[i].Completed?
  {
  }

  /** The end comes last and only last. */
  lemma {:induction false} OneEnd<K, D>(items: seq<Item<D>>, p: Progress<K>, merge: (K, D) -> K)
    ensures Batch(items, p, merge) != []
    ensures forall i :: 0 <= i < |Batch(items, p, merge)| ==>
              (IsEnd(Batch(items, p, merge)[i]) <==> i == |Batch(items, p, merge)| - 1)
  {
    if items != [] && items[0].Ok? {
      OneEnd(items[1..], Advance(p, items[0].value, merge), merge);
      ChunkEventsGoOn<K, D>(items[0].value, p.usage.None?);
    }
  }

  /** Everything the good chunks carry, after what was read before. */
  function AllProgress<K, D>(p: Progress<K>, chunks: seq<Chunk<D>>, merge: (K, D) -> K): Progress<K> {
    Progress(p.text + Content(chunks), MergeAll(p.calls, chunks, merge), OrElse(LastUsage(chunks), p.usage))
  }

  lemma ProgressStep<K, D>(p: Progress<K>, chunk: Chunk<D>, chunks: seq<Chunk<D>>, merge: (K, D) -> K)
    ensures AllProgress(p, [chunk] + chunks, merge) == AllProgress(Advance(p, chunk, merge), chunks, merge)
  {
    var all := [chunk] + chunks;
    assert all[1..] == chunks;
    assert Content(all) == ContentOf(chunk) + Content(chunks);
    assert p.text + (ContentOf(chunk) + Content(chunks)) == p.text + ContentOf(chunk) + Content(chunks);
  }

  lemma {:induction false} EndCarries<K, D>(items: seq<Item<D>>, p: Progress<K>, merge: (K, D) -> K)
    ensures Batch(items, p, merge) != []
    ensures Batch(items, p, merge)[|Batch(items, p, merge)| - 1] ==
            if FirstError(items).Some? then Err(FirstError(items).value)
            else Ok(Finish(AllProgress(p, GoodChunks(items), merge)))
  {
    if items == [] {
      assert p.text + "" == p.text;
    } else if items[0].Ok? {
      EndCarries(items[1..], Advance(p, items[0].value, merge), merge);
      ProgressStep(p, items[0].value, GoodChunks(items[1..]), merge);
    }
  }

  /** The response a stream without error amounts to. */
  function Whole<K, D>(chunks: seq<Chunk<D>>, noCalls: K, merge: (K, D) -> K): Response<K> {
    Response(if Content(chunks) == "" then None else Some(Content(chunks)),
             MergeAll(noCalls, chunks, merge), LastUsage(chunks))
  }

  /**
   For every chunk sequence: one end, at the very end; the text and reasoning
   deltas spell the chunks' text and reasoning; usage is announced once, with the
   first report, while the response carries the last; the response's text is what
   the deltas spelled; an error ends the stream and hides the chunks after it.
   */
  lemma StreamTells<K, D>(items: seq<Item<D>>, noCalls: K, merge: (K, D) -> K)
    ensures var out, chunks := Batch(items, Progress("", noCalls, None), merge), GoodChunks(items);
            && out != []
            && (forall i :: 0 <= i < |out| ==> (IsEnd(out[i]) <==> i == |out| - 1))
            && Texts(out) == Content(chunks) && Reasonings(out) == Thoughts(chunks)
            && UsageEvents(out) == (if FirstUsage(chunks).Some? then [FirstUsage(chunks).value] else [])
            && out[|out| - 1] == (if FirstError(items).Some? then Err(FirstError(items).value)
                                  else Ok(Completed(Whole(chunks, noCalls, merge))))
  {
    hide Batch, IsEnd, Texts, Reasonings, Content, Thoughts, UsageEvents, FirstError, GoodChunks;
    var p := Progress("", noCalls, None);
    OneEnd(items, p, merge);
    BatchTexts(items, p, merge);
    BatchUsage(items, p, merge);
    EndCarries(items, p, merge);
    assert "" + Content(GoodChunks(items)) == Content(GoodChunks(items));
  }

  // ----- collecting a stream -----

  /** The running totals of `collect_model_stream`. */
  datatype Collecting<C> = Collecting(text: string, calls: seq<C>, usage: Option<Usage>,
                                      completed: Option<Response<seq<C>>>)

  /** A streamed tool call event carries one call. */
  function CollectOne<C>(c: Collecting<C>, event: Event<seq<C>>): Collecting<C> {
    match event
    case TextDelta(t) => c.(text := c.text + t)
    case ReasoningDelta(_) => c
    case ToolCallEvent(call) => c.(calls := c.calls + call)
    case UsageEvent(u) => c.(usage := Some(u))
    case Completed(r) => c.(usage := OrElse(c.usage, r.usage), completed := Some(r))
  }

  function CollectFrom<C>(c: Collecting<C>, outputs: seq<Output<seq<C>>>): Result<Response<seq<C>>, string>
    decreases |outputs|
  {
    if outputs == [] then
      var r := if c.completed.Some? then c.completed.value
               else Response(if c.text == "" then None else Some(c.text), c.calls, None);
      Ok(r.(usage := OrElse(r.usage, c.usage)))
    else if outputs[0].Err? then Err(outputs[0].error)
    else CollectFrom(CollectOne(c, outputs[0].value), outputs[1..])
  }

  function Collect<C>(outputs: seq<Output<seq<C>>>): Result<Response<seq<C>>, string> {
    CollectFrom(Collecting("", [], None, None), outputs)
  }

  method CollectModelStream<C>(outputs: seq<Output<seq<C>>>) returns (r: Result<Response<seq<C>>, string>)
    ensures r == Collect(outputs)
  {
    var text, calls: seq<C>, usage, completed: Option<Response<seq<C>>> := "", [], None, None;
    for i := 0 to |outputs|
      invariant Collect(outputs) == CollectFrom(Collecting(text, calls, usage, completed), outputs[i..])
    {
      assert outputs[i..][0] == outputs[i] && outputs[i..][1..] == outputs[i + 1..];
      if outputs[i].Err? {
        return Err(outputs[i].error);
      }
      match outputs[i].value {
        case TextDelta(t) => text := text + t;
        case ReasoningDelta(_) =>
        case ToolCallEvent(call) => calls := calls + call;
        case UsageEvent(u) => usage := Some(u);
        case Completed(response) =>
          usage := OrElse(usage, response.usage);
          completed := Some(response);
      }
    }
    var response := if completed.Some? then completed.value
                    else Response(if text == "" then None else Some(text), calls, None);
    r := Ok(response.(usage := OrElse(response.usage, usage)));
  }

  /** No usage is announced that the response at the end does not carry. */
  ghost predicate UsageCovered<C>(c: Collecting<C>, outputs: seq<Output<seq<C>>>)
    requires outputs != []
  {
    var end := outputs[|outputs| - 1];
    end.Ok? && end.value.Completed? && end.value.response.usage.None? ==>
      c.usage.None? && UsageEvents(outputs) == []
  }

  /** Collecting yields what the end of the stream says: its response, or its error. */
  lemma {:induction false} CollectEnds<C>(c: Collecting<C>, outputs: seq<Output<seq<C>>>)
    requires outputs != [] && forall i :: 0 <= i < |outputs| ==> (IsEnd(outputs[i]) <==> i == |outputs| - 1)
    requires UsageCovered(c, outputs)
    ensures CollectFrom(c, outputs) ==
            var end := outputs[|outputs| - 1];
            if end.Err? then Err(end.error) else assert IsEnd(end); Ok(end.value.response)
    decreases |outputs|
  {
    if |outputs| == 1 {
      assert outputs[1..] == [];
    } else {
      var rest := outputs[1..];
      assert !IsEnd(outputs[0]);
      forall i | 0 <= i < |rest| ensures IsEnd(rest[i]) <==> i == |rest| - 1 {
        assert rest[i] == outputs[i + 1];
      }
      CollectEnds(CollectOne(c, outputs[0].value), rest);
    }
  }

  lemma {:induction false} NoUsageReported<D>(chunks: seq<Chunk<D>>)
    ensures LastUsage(chunks).None? <==> FirstUsage(chunks).None?
  {
    if chunks != [] {
      NoUsageReported(chunks[1..]);
    }
  }

  /** Streaming and collecting gives the response of the whole: nothing is lost on the way. */
  lemma CollectUndoesStreaming<C, D>(items: seq<Item<D>>, merge: (seq<C>, D) -> seq<C>)
    ensures var chunks := GoodChunks(items);
            Collect(Batch(items, Progress("", [], None), merge)) ==
            if FirstError(items).Some? then Err(FirstError(items).value)
            else Ok(Whole(chunks, [], merge))
  {
    StreamTells<seq<C>, D>(items, [], merge);
    NoUsageReported(GoodChunks(items));
    CollectEnds(Collecting("", [], None, None), Batch(items, Progress("", [], None), merge));
  }

  /** A complete response served as a stream. */
  function ResponseEvents<C>(r: Response<seq<C>>): seq<Event<seq<C>>> {
    (if r.text.Some? && r.text.value != "" then [TextDelta(r.text.value)] else []) +
    seq(|r.calls|, i requires 0 <= i < |r.calls| => ToolCallEvent([r.calls[i]])) +
    (if r.usage.Some? then [UsageEvent(r.usage.value)] else []) +
    [Completed(r)]
  }

  lemma {:induction false} NoUsageEvents<C>(outputs: seq<Output<seq<C>>>)
    requires forall i :: 0 <= i < |outputs| ==> outputs[i].Ok? && !outputs[i].value.UsageEvent?
    ensures UsageEvents(outputs) == []
  {
    if outputs != [] {
      NoUsageEvents(outputs[1..]);
    }
  }

  /** Collecting it gives the response back. */
  lemma CollectUndoesServing<C>(r: Response<seq<C>>)
    ensures Collect(Outputs(ResponseEvents(r))) == Ok(r)
  {
    var out := Outputs(ResponseEvents(r));
    if r.usage.None? {
      NoUsageEvents(out);
    }
    assert out[|out| - 1] == Ok(Completed(r));
    CollectEnds(Collecting("", [], None, None), out);
  }

  // ----- collecting any stream -----

  /** The first error among the outputs. */
  function FirstFault<K>(outputs: seq<Output<K>>): Option<string> {
    if outputs == [] then None
    else if outputs[0].Err? then Some(outputs[0].error)
    else FirstFault(outputs[1..])
  }

  function StreamedCalls<C>(outputs: seq<Output<seq<C>>>): seq<C> {
    if outputs == [] then []
    else
      (if outputs[0].Ok? && outputs[0].value.ToolCallEvent? then outputs[0].value.call else [])
      + StreamedCalls(outputs[1..])
  }

  /** The responses carried by the outputs. */
  function Responses<K>(outputs: seq<Output<K>>): seq<Response<K>> {
    if outputs == [] then []
    else
      (if outputs[0].Ok? && outputs[0].value.Completed? then [outputs[0].value.response] else [])
      + Responses(outputs[1..])
  }

  function LastOf<T>(s: seq<T>): Option<T> {
    if s == [] then None else Some(s[|s| - 1])
  }

  /** The first usage one of the responses carries. */
  function FirstCarried<K>(rs: seq<Response<K>>): Option<Usage> {
    if rs == [] then None else OrElse(rs[0].usage, FirstCarried(rs[1..]))
  }

  /** What a stream amounts to: its last response, or else the text and calls that were streamed. */
  function Summary<C>(outputs: seq<Output<seq<C>>>): Response<seq<C>> {
    var rs := Responses(outputs);
    var reported := OrElse(LastOf(UsageEvents(outputs)), FirstCarried(rs));
    if rs != [] then
      rs[|rs| - 1].(usage := OrElse(rs[|rs| - 1].usage, reported))
    else
      Response(if Texts(outputs) == "" then None else Some(Texts(outputs)), StreamedCalls(outputs), reported)
  }

  /** The summary of what came before and what is to come. */
  function SummaryFrom<C>(c: Collecting<C>, outputs: seq<Output<seq<C>>>): Response<seq<C>> {
    var rs := Responses(outputs);
    var reported := OrElse(LastOf(UsageEvents(outputs)), OrElse(c.usage, FirstCarried(rs)));
    var r := if rs != [] then rs[|rs| - 1]
             else if c.completed.Some? then c.completed.value
             else
               var text := c.text + Texts(outputs);
               Response(if text == "" then None else Some(text), c.calls + StreamedCalls(outputs), None);
    r.(usage := OrElse(r.usage, reported))
  }

  /** What the first output adds to each of the collections. */
  lemma HeadText<C>(outputs: seq<Output<seq<C>>>)
    requires outputs != [] && outputs[0].Ok?
    ensures var e, rest := outputs[0].value, Texts(outputs[1..]);
            Texts(outputs) == if e.TextDelta? then e.text + rest else rest
  {
    var f := (o: Output<seq<C>>) => TextOf(o);
    assert Gather(outputs, f) == f(outputs[0]) + Gather(outputs[1..], f);
  }

  lemma HeadUsage<C>(outputs: seq<Output<seq<C>>>)
    requires outputs != [] && outputs[0].Ok?
    ensures var e, rest := outputs[0].value, UsageEvents(outputs[1..]);
            UsageEvents(outputs) == if e.UsageEvent? then [e.usage] + rest else rest
  {
    var f := (o: Output<seq<C>>) => UsageOf(o);
    assert Gather(outputs, f) == f(outputs[0]) + Gather(outputs[1..], f);
  }

  lemma HeadResponse<C>(outputs: seq<Output<seq<C>>>)
    requires outputs != [] && outputs[0].Ok?
    ensures var e, rest := outputs[0].value, outputs[1..];
            && StreamedCalls(outputs)
               == (if e.ToolCallEvent? then e.call + StreamedCalls(rest) else StreamedCalls(rest))
            && Responses(outputs) == (if e.Completed? then [e.response] + Responses(rest) else Responses(rest))
  {
  }

  lemma LastOfCons<T>(x: T, s: seq<T>)
    ensures LastOf([x] + s) == if s == [] then Some(x) else LastOf(s)
  {
  }

  lemma FirstCarriedCons<K>(r: Response<K>, rs: seq<Response<K>>)
    ensures FirstCarried([r] + rs) == OrElse(r.usage, FirstCarried(rs))
    ensures ([r] + rs)[|rs|] == if rs == [] then r else rs[|rs| - 1]
  {
    assert ([r] + rs)[1..] == rs;
  }

  lemma SummaryStep<C>(c: Collecting<C>, outputs: seq<Output<seq<C>>>)
    requires outputs != [] && outputs[0].Ok?
    ensures SummaryFrom(CollectOne(c, outputs[0].value), outputs[1..]) == SummaryFrom(c, outputs)
  {
    hide Texts, UsageEvents, StreamedCalls, Responses;
    var rest := outputs[1..];
    HeadText(outputs);
    HeadUsage(outputs);
    HeadResponse(outputs);
    match outputs[0].value {
      case TextDelta(t) => Associate(c.text, t, Texts(rest));
      case ToolCallEvent(call) => Associate(c.calls, call, StreamedCalls(rest));
      case UsageEvent(u) => LastOfCons(u, UsageEvents(rest));
      case ReasoningDelta(_) =>
      case Completed(r) =>
        var all := [r] + Responses(rest);
        FirstCarriedCons(r, Responses(rest));
        assert all[|all| - 1] == all[|Responses(rest)|];
        var was, now := SummaryFrom(c, outputs), SummaryFrom(CollectOne(c, outputs[0].value), rest);
        assert now.text == was.text && now.calls == was.calls && now.usage == was.usage;
    }
  }

  lemma {:induction false} CollectSummarises<C>(c: Collecting<C>, outputs: seq<Output<seq<C>>>)
    ensures CollectFrom(c, outputs) ==
            if FirstFault(outputs).Some? then Err(FirstFault(outputs).value) else Ok(SummaryFrom(c, outputs))
    decreases |outputs|
  {
    hide SummaryFrom;
    if outputs == [] {
      NothingMore(c);
    } else if outputs[0].Ok? {
      CollectSummarises(CollectOne(c, outputs[0].value), outputs[1..]);
      SummaryStep(c, outputs);
    }
  }

  lemma NothingMore<C>(c: Collecting<C>)
    ensures CollectFrom(c, []) == Ok(SummaryFrom(c, []))
  {
    assert c.text + "" == c.text && c.calls + [] == c.calls;
  }

  /**
   Collecting any stream, with responses in it or without, gives its first error or
   else what it amounts to: the last response, or the streamed text and calls; a usage
   the response does not carry is the last one reported, or the first one carried.
   */
  lemma CollectIsSummary<C>(outputs: seq<Output<seq<C>>>)
    ensures Collect(outputs) ==
            if FirstFault(outputs).Some? then Err(FirstFault(outputs).value) else Ok(Summary(outputs))
  {
    CollectSummarises(Collecting("", [], None, None), outputs);
    assert "" + Texts(outputs) == Texts(outputs) && [] + StreamedCalls(outputs) == StreamedCalls(outputs);
  }
}
