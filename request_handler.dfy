/**
 * The base request handler: the HTTP request and the server it arrives on,
 * authentication against the stored credentials, and the template streamer
 * that sends a file with every `%key%` replaced by `processor(key)`.
 */
module Requests {
  import opened Wrappers
  import opened Config

  /** The request methods of the web server. */
  datatype HttpMethod = HttpAny | HttpGet | HttpHead | HttpPost | HttpPut | HttpPatch | HttpDelete | HttpOptions

  /** Credentials a client presents with basic authentication. */
  datatype Authorization = Basic(user: string, password: string)

  /** An incoming request: method, path, form arguments and presented credentials. */
  datatype Request = Request(
    httpMethod: HttpMethod,
    uri: string,
    args: map<string, string>,
    authorization: Option<Authorization>)

  /** A form argument, or the empty string when the request does not carry it. */
  function Arg(request: Request, name: string): string {
    if name in request.args then request.args[name] else ""
  }

  /**
   * Every effect of handling a request, in order: what goes to the client,
   * the radio scan calls made on the way, and the restart callback.
   */
  datatype Effect =
    | SetContentLengthUnknown
    | SendHeader(name: string, value: string, first: bool)
    | SendStatus(code: nat)
    | SendContent(content: string)
    | Send(code: nat, contentType: string, body: string)
    | RequestAuthentication
    | ScanNetworks(async: bool)
    | ScanDelete
    | ScanComplete
    | NeedRestart

  /** The web server while it handles one request, with the log of effects. */
  class Server {
    const request: Request
    var out: seq<Effect>

    constructor (request: Request)
      ensures this.request == request && out == []
    {
      this.request := request;
      out := [];
    }

    method Emit(e: Effect)
      modifies this
      ensures out == old(out) + [e]
    {
      out := out + [e];
    }
  }

  /** The server accepts a request whose basic credentials are exactly the stored user and password. */
  function Authorized(request: Request, user: string, password: string): (ok: bool)
    ensures request.authorization.None? ==> !ok
    ensures ok <==> (request.authorization.Some?
      && request.authorization.value.user == user && request.authorization.value.password == password)
  {
    request.authorization == Some(Basic(user, password))
  }

  /** The delimiter around a substitution key. */
  const Bookend: char := '%'

  /** Literal text is sent as soon as this many bytes are pending; the text holds one `char` per byte read. */
  const MaxChunk: nat := 100

  /** The processor used when the application defines none: the key itself. */
  function DefaultProcessor(key: string): string {
    key
  }

  /** One `sendContent` of the streamer: pending literal text, a substitution, or the closing empty chunk. */
  datatype Chunk = Literal(text: string) | Substitution(key: string, value: string) | Terminator

  function ChunkText(c: Chunk): string {
    match c
    case Literal(t) => t
    case Substitution(_, v) => v
    case Terminator => ""
  }

  /** The effects of sending the chunks in order. */
  function Sends(chunks: seq<Chunk>): seq<Effect> {
    if chunks == [] then [] else [SendContent(ChunkText(chunks[0]))] + Sends(chunks[1..])
  }

  /** The concatenation of the texts of the chunks, in order. */
  function Emitted(chunks: seq<Chunk>): string {
    if chunks == [] then "" else ChunkText(chunks[0]) + Emitted(chunks[1..])
  }

  lemma {:induction false} SendsAppend(a: seq<Chunk>, b: seq<Chunk>)
    ensures Sends(a + b) == Sends(a) + Sends(b)
  {
    if a == [] {
      assert a + b == b;
    } else {
      assert (a + b)[1..] == a[1..] + b;
      SendsAppend(a[1..], b);
    }
  }

  lemma {:induction false} EmittedAppend(a: seq<Chunk>, b: seq<Chunk>)
    ensures Emitted(a + b) == Emitted(a) + Emitted(b)
  {
    if a == [] {
      assert a + b == b;
    } else {
      assert (a + b)[1..] == a[1..] + b;
      EmittedAppend(a[1..], b);
    }
  }

  /** No bookend among `s[lo..hi]`. */
  predicate NoBookend(s: string, lo: nat, hi: nat)
    requires lo <= hi <= |s|
  {
    forall m :: lo <= m < hi ==> s[m] != Bookend
  }

  lemma EmittedPair(a: Chunk, b: Chunk)
    ensures Emitted([a]) == ChunkText(a)
    ensures Emitted([a, b]) == ChunkText(a) + ChunkText(b)
  {
    assert [a][1..] == [];
    assert [a, b][1..] == [b];
    assert [b][1..] == [];
  }

  lemma SendsPair(a: Chunk, b: Chunk)
    ensures Sends([a, b]) == [SendContent(ChunkText(a)), SendContent(ChunkText(b))]
  {
    assert [a, b][1..] == [b];
    assert [b][1..] == [];
    assert Sends([b]) == [SendContent(ChunkText(b))] + Sends([]);
  }

  /** The position of the first bookend at or after `lo`, if any. */
  function FindBookend(s: string, lo: nat): (k: Option<nat>)
    requires lo <= |s|
    ensures k.None? <==> NoBookend(s, lo, |s|)
    ensures k.Some? ==> lo <= k.value < |s| && s[k.value] == Bookend && NoBookend(s, lo, k.value)
    decreases |s| - lo
  {
    if lo == |s| then None
    else if s[lo] == Bookend then Some(lo)
    else FindBookend(s, lo + 1)
  }

  /** Any bookend with none between `lo` and it is the one `FindBookend` finds. */
  lemma FindBookendFirst(s: string, lo: nat, k: nat)
    requires lo <= k < |s| && s[k] == Bookend && NoBookend(s, lo, k)
    ensures FindBookend(s, lo) == Some(k)
  {
    var j := FindBookend(s, lo).value;
    assert !(j < k);
  }

  /** What the streamer sends, and whether it ends well. */
  datatype Streamed = Streamed(chunks: seq<Chunk>, ok: bool)

  /**
   * The streamer as a function of the text, the read position and the
   * pending literal text: a bookend flushes the buffer and then either
   * substitutes up to the next bookend or, when there is none, fails; any
   * other character joins the buffer, which is flushed once it holds
   * `MaxChunk` bytes; at the end the buffer and then an empty chunk are sent.
   */
  function Stream(s: string, pos: nat, buffer: string, processor: string -> string): Streamed
    requires pos <= |s|
    decreases |s| - pos
  {
    if pos == |s| then Streamed([Literal(buffer), Terminator], true)
    else if s[pos] == Bookend then
      match FindBookend(s, pos + 1)
      case None => Streamed([Literal(buffer)], false)
      case Some(j) =>
        var key := s[pos + 1..j];
        var rest := Stream(s, j + 1, "", processor);
        Streamed([Literal(buffer), Substitution(key, processor(key))] + rest.chunks, rest.ok)
    else if |buffer| + 1 >= MaxChunk then
      var rest := Stream(s, pos + 1, "", processor);
      Streamed([Literal(buffer + [s[pos]])] + rest.chunks, rest.ok)
    else
      Stream(s, pos + 1, buffer + [s[pos]], processor)
  }

  /** What the streamer sends for a whole template. */
  function StreamTemplate(s: string, processor: string -> string): Streamed {
    Stream(s, 0, "", processor)
  }

  /** `o` with `chunks` already sent before it. */
  function Prepend(chunks: seq<Chunk>, o: Streamed): Streamed {
    Streamed(chunks + o.chunks, o.ok)
  }

  /** Chunks sent in two goes are sent in one. */
  lemma PrependTwice(a: seq<Chunk>, b: seq<Chunk>, o: Streamed)
    ensures Prepend(a, Prepend(b, o)) == Prepend(a + b, o)
  {
    assert a + (b + o.chunks) == (a + b) + o.chunks;
  }

  /** Sending `step` after `sent` keeps the account of what was sent and what remains to send. */
  lemma Advance(sent: seq<Chunk>, step: seq<Chunk>, rest: Streamed, whole: Streamed)
    requires Prepend(sent, Prepend(step, rest)) == whole
    ensures Prepend(sent + step, rest) == whole
    ensures Sends(sent + step) == Sends(sent) + Sends(step)
  {
    PrependTwice(sent, step, rest);
    SendsAppend(sent, step);
  }

  /** One step of the streamer on a character that is not a bookend and does not fill the buffer. */
  lemma BufferStep(s: string, pos: nat, buffer: string, processor: string -> string)
    requires pos < |s| && s[pos] != Bookend && |buffer| + 1 < MaxChunk
    ensures Stream(s, pos, buffer, processor) == Stream(s, pos + 1, buffer + [s[pos]], processor)
  {
  }

  /** One step of the streamer on a character that fills the buffer. */
  lemma FlushStep(s: string, pos: nat, buffer: string, processor: string -> string)
    requires pos < |s| && s[pos] != Bookend && |buffer| + 1 >= MaxChunk
    ensures Stream(s, pos, buffer, processor) == Prepend([Literal(buffer + [s[pos]])], Stream(s, pos + 1, "", processor))
  {
  }

  /** One step of the streamer on a bookend closed at `j`. */
  lemma SubstitutionStep(s: string, pos: nat, buffer: string, j: nat, processor: string -> string)
    requires pos < |s| && s[pos] == Bookend && FindBookend(s, pos + 1) == Some(j)
    ensures Stream(s, pos, buffer, processor) ==
      Prepend([Literal(buffer), Substitution(s[pos + 1..j], processor(s[pos + 1..j]))], Stream(s, j + 1, "", processor))
  {
  }

  /** The streamer at the end of the text: the pending text, then the empty chunk. */
  lemma EndStep(s: string, buffer: string, processor: string -> string)
    ensures Stream(s, |s|, buffer, processor) == Streamed([Literal(buffer), Terminator], true)
  {
  }

  /** One step of the streamer on a bookend that is never closed. */
  lemma UnclosedStep(s: string, pos: nat, buffer: string, processor: string -> string)
    requires pos < |s| && s[pos] == Bookend && FindBookend(s, pos + 1).None?
    ensures Stream(s, pos, buffer, processor) == Streamed([Literal(buffer)], false)
  {
  }

  /**
   * The intended expansion from `pos` on, without any chunking: each
   * `%key%` becomes `processor(key)`, other characters stay, and the text
   * stops at a bookend that is never closed.
   */
  function Expand(s: string, pos: nat, processor: string -> string): string
    requires pos <= |s|
    decreases |s| - pos
  {
    if pos == |s| then ""
    else if s[pos] == Bookend then
      match FindBookend(s, pos + 1)
      case None => ""
      case Some(j) => processor(s[pos + 1..j]) + Expand(s, j + 1, processor)
    else [s[pos]] + Expand(s, pos + 1, processor)
  }

  /** `s[pos..]` with every bookend deleted. */
  function RemoveBookends(s: string, pos: nat): string
    requires pos <= |s|
    decreases |s| - pos
  {
    if pos == |s| then ""
    else (if s[pos] == Bookend then "" else [s[pos]]) + RemoveBookends(s, pos + 1)
  }

  /** The number of bookends in `s[pos..]`. */
  function Bookends(s: string, pos: nat): nat
    requires pos <= |s|
    decreases |s| - pos
  {
    if pos == |s| then 0
    else (if s[pos] == Bookend then 1 else 0) + Bookends(s, pos + 1)
  }

  lemma {:induction false} BookendsSkipPlain(s: string, lo: nat, hi: nat)
    requires lo <= hi <= |s| && NoBookend(s, lo, hi)
    ensures Bookends(s, lo) == Bookends(s, hi)
    decreases hi - lo
  {
    if lo < hi {
      BookendsSkipPlain(s, lo + 1, hi);
    }
  }

  /** The sent chunks concatenate to the pending text followed by the expansion of the rest, whatever the outcome. */
  lemma {:induction false} StreamEmitsExpansion(s: string, pos: nat, buffer: string, processor: string -> string)
    requires pos <= |s|
    ensures Emitted(Stream(s, pos, buffer, processor).chunks) == buffer + Expand(s, pos, processor)
    decreases |s| - pos
  {
    var chunks := Stream(s, pos, buffer, processor).chunks;
    if pos == |s| {
      EmittedPair(Literal(buffer), Terminator);
      assert buffer + "" == buffer;
    } else if s[pos] == Bookend {
      match FindBookend(s, pos + 1)
      case None =>
        EmittedPair(Literal(buffer), Terminator);
        assert buffer + "" == buffer;
      case Some(j) =>
        var key := s[pos + 1..j];
        var front := [Literal(buffer), Substitution(key, processor(key))];
        var rest := Stream(s, j + 1, "", processor).chunks;
        var tail := Expand(s, j + 1, processor);
        assert chunks == front + rest;
        assert Expand(s, pos, processor) == processor(key) + tail;
        StreamEmitsExpansion(s, j + 1, "", processor);
        assert Emitted(rest) == tail by { assert "" + tail == tail; }
        EmittedAppend(front, rest);
        EmittedPair(Literal(buffer), Substitution(key, processor(key)));
        Associative(buffer, processor(key), tail);
    } else if |buffer| + 1 >= MaxChunk {
      var front := [Literal(buffer + [s[pos]])];
      var rest := Stream(s, pos + 1, "", processor).chunks;
      var tail := Expand(s, pos + 1, processor);
      assert chunks == front + rest;
      assert Expand(s, pos, processor) == [s[pos]] + tail;
      StreamEmitsExpansion(s, pos + 1, "", processor);
      assert Emitted(rest) == tail by { assert "" + tail == tail; }
      EmittedAppend(front, rest);
      EmittedPair(Literal(buffer + [s[pos]]), Terminator);
      Associative(buffer, [s[pos]], tail);
    } else {
      var tail := Expand(s, pos + 1, processor);
      assert chunks == Stream(s, pos + 1, buffer + [s[pos]], processor).chunks;
      assert Expand(s, pos, processor) == [s[pos]] + tail;
      StreamEmitsExpansion(s, pos + 1, buffer + [s[pos]], processor);
      Associative(buffer, [s[pos]], tail);
    }
  }

  /** The streamer succeeds exactly when the unread text has an even number of bookends. */
  lemma {:induction false} StreamOkIffBalanced(s: string, pos: nat, buffer: string, processor: string -> string)
    requires pos <= |s|
    ensures Stream(s, pos, buffer, processor).ok <==> Bookends(s, pos) % 2 == 0
    decreases |s| - pos
  {
    if pos == |s| {
    } else if s[pos] == Bookend {
      match FindBookend(s, pos + 1)
      case None =>
        BookendsSkipPlain(s, pos + 1, |s|);
      case Some(j) =>
        BookendsSkipPlain(s, pos + 1, j);
        StreamOkIffBalanced(s, j + 1, "", processor);
    } else if |buffer| + 1 >= MaxChunk {
      StreamOkIffBalanced(s, pos + 1, "", processor);
    } else {
      StreamOkIffBalanced(s, pos + 1, buffer + [s[pos]], processor);
    }
  }

  /** No literal chunk is longer than `MaxChunk`. */
  lemma {:induction false} LiteralChunksBounded(s: string, pos: nat, buffer: string, processor: string -> string)
    requires pos <= |s| && |buffer| < MaxChunk
    ensures forall c :: c in Stream(s, pos, buffer, processor).chunks && c.Literal? ==> |c.text| <= MaxChunk
    decreases |s| - pos
  {
    if pos == |s| {
    } else if s[pos] == Bookend {
      match FindBookend(s, pos + 1)
      case None =>
      case Some(j) =>
        LiteralChunksBounded(s, j + 1, "", processor);
    } else if |buffer| + 1 >= MaxChunk {
      LiteralChunksBounded(s, pos + 1, "", processor);
    } else {
      LiteralChunksBounded(s, pos + 1, buffer + [s[pos]], processor);
    }
  }

  /**
   * The first chunk is pending literal text, and every substitution comes
   * right after a literal chunk: the buffer is flushed before it.
   */
  lemma {:induction false} FlushBeforeSubstitution(s: string, pos: nat, buffer: string, processor: string -> string)
    requires pos <= |s|
    ensures var chunks := Stream(s, pos, buffer, processor).chunks;
      && |chunks| > 0 && chunks[0].Literal?
      && forall i :: 0 <= i < |chunks| && chunks[i].Substitution? ==> 0 < i && chunks[i - 1].Literal?
    decreases |s| - pos
  {
    if pos == |s| {
    } else if s[pos] == Bookend {
      match FindBookend(s, pos + 1)
      case None =>
      case Some(j) =>
        FlushBeforeSubstitution(s, j + 1, "", processor);
        var rest := Stream(s, j + 1, "", processor).chunks;
        var chunks := Stream(s, pos, buffer, processor).chunks;
        forall i | 0 <= i < |chunks| && chunks[i].Substitution?
          ensures 0 < i && chunks[i - 1].Literal?
        {
          if i >= 2 {
            assert chunks[i] == rest[i - 2];
            if i > 2 {
              assert chunks[i - 1] == rest[i - 3];
            }
          }
        }
    } else if |buffer| + 1 >= MaxChunk {
      FlushBeforeSubstitution(s, pos + 1, "", processor);
      var rest := Stream(s, pos + 1, "", processor).chunks;
      var chunks := Stream(s, pos, buffer, processor).chunks;
      forall i | 0 <= i < |chunks| && chunks[i].Substitution?
        ensures 0 < i && chunks[i - 1].Literal?
      {
        assert chunks[i] == rest[i - 1];
        if i > 1 {
          assert chunks[i - 1] == rest[i - 2];
        }
      }
    } else {
      FlushBeforeSubstitution(s, pos + 1, buffer + [s[pos]], processor);
    }
  }

  /**
   * A successful stream ends with the pending text and then the closing
   * empty chunk; a failed one ends with the flushed text and never reaches
   * the closing call. On the server both are `sendContent("")`, and a failed
   * stream may already have sent that call (see `EmptyFlushAtBookend`).
   */
  lemma {:induction false} StreamEnding(s: string, pos: nat, buffer: string, processor: string -> string)
    requires pos <= |s|
    ensures var o := Stream(s, pos, buffer, processor);
      && |o.chunks| > 0
      && (o.ok ==> |o.chunks| >= 2 && o.chunks[|o.chunks| - 1] == Terminator && o.chunks[|o.chunks| - 2].Literal?)
      && (!o.ok ==> Terminator !in o.chunks && o.chunks[|o.chunks| - 1].Literal?)
    decreases |s| - pos
  {
    if pos == |s| {
    } else if s[pos] == Bookend {
      match FindBookend(s, pos + 1)
      case None =>
      case Some(j) =>
        StreamEnding(s, j + 1, "", processor);
    } else if |buffer| + 1 >= MaxChunk {
      StreamEnding(s, pos + 1, "", processor);
    } else {
      StreamEnding(s, pos + 1, buffer + [s[pos]], processor);
    }
  }

  /** `Sends` makes one `sendContent` per chunk, with that chunk's text. */
  lemma {:induction false} SendsAt(chunks: seq<Chunk>, i: nat)
    requires i < |chunks|
    ensures |Sends(chunks)| == |chunks| && Sends(chunks)[i] == SendContent(ChunkText(chunks[i]))
    decreases i
  {
    if i > 0 {
      SendsAt(chunks[1..], i - 1);
    } else {
      SendsLength(chunks[1..]);
    }
  }

  lemma {:induction false} SendsLength(chunks: seq<Chunk>)
    ensures |Sends(chunks)| == |chunks|
    decreases |chunks|
  {
    if chunks != [] {
      SendsLength(chunks[1..]);
    }
  }

  /**
   * The buffer is empty at the start of the text, after each substitution and
   * after each flush; a bookend met then is preceded by a flush of nothing, so
   * `sendContent("")`, the call that also ends the body, goes out first. When
   * the key is closed it is not the last call: the substitution and more follow.
   * When it is not, the stream fails having sent only that empty call.
   */
  lemma EmptyFlushAtBookend(s: string, pos: nat, processor: string -> string)
    requires pos < |s| && s[pos] == Bookend
    ensures var o := Stream(s, pos, "", processor);
      var sends := Sends(o.chunks);
      && |sends| > 0 && sends[0] == SendContent("")
      && (FindBookend(s, pos + 1).None? ==> !o.ok && sends == [SendContent("")])
      && (FindBookend(s, pos + 1).Some? ==>
            |sends| > 2 && sends[1] == SendContent(processor(s[pos + 1..FindBookend(s, pos + 1).value])))
  {
    var chunks := Stream(s, pos, "", processor).chunks;
    match FindBookend(s, pos + 1)
    case None =>
      UnclosedStep(s, pos, "", processor);
      SendsAt(chunks, 0);
    case Some(j) =>
      SubstitutionStep(s, pos, "", j, processor);
      StreamEnding(s, j + 1, "", processor);
      SendsAt(chunks, 0);
      SendsAt(chunks, 1);
  }

  /**
   * A key that directly follows a closed one is preceded by a flush of
   * nothing: the third call is `sendContent("")`, and when the stream
   * succeeds more calls follow it.
   */
  lemma AdjacentKeysSendEmpty(s: string, pos: nat, buffer: string, j: nat, processor: string -> string)
    requires pos < |s| && s[pos] == Bookend && FindBookend(s, pos + 1) == Some(j)
    requires j + 1 < |s| && s[j + 1] == Bookend
    ensures var o := Stream(s, pos, buffer, processor);
      var sends := Sends(o.chunks);
      && |sends| > 2 && sends[2] == SendContent("")
      && (o.ok ==> |sends| > 3)
  {
    var front := [Literal(buffer), Substitution(s[pos + 1..j], processor(s[pos + 1..j]))];
    var rest := Stream(s, j + 1, "", processor).chunks;
    SubstitutionStep(s, pos, buffer, j, processor);
    assert Stream(s, pos, buffer, processor).chunks == front + rest;
    EmptyFlushAtBookend(s, j + 1, processor);
    SendsAppend(front, rest);
    SendsLength(front);
    SendsAt(rest, 0);
    SendsLength(rest);
    assert (Sends(front) + Sends(rest))[2] == Sends(rest)[0];
  }

  /** Text without bookends expands to itself, in front of the expansion of what follows. */
  lemma {:induction false} ExpandPlain(s: string, lo: nat, hi: nat, processor: string -> string)
    requires lo <= hi <= |s| && NoBookend(s, lo, hi)
    ensures Expand(s, lo, processor) == s[lo..hi] + Expand(s, hi, processor)
    decreases hi - lo
  {
    if lo < hi {
      ExpandPlain(s, lo + 1, hi, processor);
      var tail := Expand(s, hi, processor);
      calc {
        Expand(s, lo, processor);
        [s[lo]] + Expand(s, lo + 1, processor);
        [s[lo]] + (s[lo + 1..hi] + tail);
        ([s[lo]] + s[lo + 1..hi]) + tail;
        { assert [s[lo]] + s[lo + 1..hi] == s[lo..hi]; }
        s[lo..hi] + tail;
      }
    } else {
      assert s[lo..hi] == [];
    }
  }

  /** A template without bookends is sent unchanged and the stream succeeds. */
  lemma PlainTextUnchanged(s: string, processor: string -> string)
    requires Bookend !in s
    ensures StreamTemplate(s, processor).ok
    ensures Emitted(StreamTemplate(s, processor).chunks) == s
  {
    assert NoBookend(s, 0, |s|);
    BookendsSkipPlain(s, 0, |s|);
    StreamOkIffBalanced(s, 0, "", processor);
    StreamEmitsExpansion(s, 0, "", processor);
    ExpandPlain(s, 0, |s|, processor);
    assert s[0..|s|] == s;
  }

  /**
   * An opening bookend that is never closed fails the stream, after the text
   * before it has been sent.
   */
  lemma UnterminatedFails(prefix: string, rest: string, processor: string -> string)
    requires Bookend !in prefix && Bookend !in rest
    ensures !StreamTemplate(prefix + [Bookend] + rest, processor).ok
    ensures Emitted(StreamTemplate(prefix + [Bookend] + rest, processor).chunks) == prefix
  {
    var s := prefix + [Bookend] + rest;
    var p := |prefix|;
    assert s[p] == Bookend;
    assert NoBookend(s, 0, p) by {
      forall m | 0 <= m < p ensures s[m] != Bookend { assert s[m] == prefix[m]; }
    }
    assert NoBookend(s, p + 1, |s|) by {
      forall m | p + 1 <= m < |s| ensures s[m] != Bookend { assert s[m] == rest[m - p - 1]; }
    }
    BookendsSkipPlain(s, 0, p);
    BookendsSkipPlain(s, p + 1, |s|);
    StreamOkIffBalanced(s, 0, "", processor);
    StreamEmitsExpansion(s, 0, "", processor);
    ExpandPlain(s, 0, p, processor);
    assert s[0..p] == prefix;
  }

  /**
   * Two adjacent bookends substitute `processor` of the empty key, wherever
   * the first of them opens a key: after the text before them, in front of
   * the expansion of the rest.
   */
  lemma EmptyKey(prefix: string, rest: string, processor: string -> string)
    requires Bookend !in prefix
    ensures var s := prefix + [Bookend, Bookend] + rest;
      Emitted(StreamTemplate(s, processor).chunks) == prefix + processor("") + Expand(s, |prefix| + 2, processor)
  {
    var s := prefix + [Bookend, Bookend] + rest;
    assert s == prefix + ([Bookend, Bookend] + rest);
    PlainPrefix(prefix, [Bookend, Bookend] + rest);
    EmptyKeyAt(s, |prefix|, processor);
  }

  /** `EmptyKey` for a template given whole: plain text up to `p`, then two bookends. */
  lemma EmptyKeyAt(s: string, p: nat, processor: string -> string)
    requires p + 1 < |s| && NoBookend(s, 0, p) && s[p] == Bookend && s[p + 1] == Bookend
    ensures Emitted(StreamTemplate(s, processor).chunks) == s[0..p] + processor("") + Expand(s, p + 2, processor)
  {
    var key := processor("");
    var after := Expand(s, p + 2, processor);
    ExpandEmptyKey(s, p, processor);
    ExpandPlain(s, 0, p, processor);
    StreamEmitsExpansion(s, 0, "", processor);
    assert "" + Expand(s, 0, processor) == Expand(s, 0, processor);
    Associative(s[0..p], key, after);
  }

  /** An opening bookend followed at once by another expands to `processor` of the empty key. */
  lemma ExpandEmptyKey(s: string, pos: nat, processor: string -> string)
    requires pos + 1 < |s| && s[pos] == Bookend && s[pos + 1] == Bookend
    ensures Expand(s, pos, processor) == processor("") + Expand(s, pos + 2, processor)
  {
    FindBookendFirst(s, pos + 1, pos + 1);
    assert s[pos + 1..pos + 1] == "";
  }

  /** A prefix without bookends is plain text at the front of what it starts. */
  lemma PlainPrefix(prefix: string, tail: string)
    requires Bookend !in prefix
    ensures NoBookend(prefix + tail, 0, |prefix|)
    ensures (prefix + tail)[0..|prefix|] == prefix
  {
    var s := prefix + tail;
    forall m | 0 <= m < |prefix| ensures s[m] != Bookend { assert s[m] == prefix[m]; }
  }

  /** With the default processor, a balanced template is sent with its bookends removed. */
  lemma {:induction false} DefaultProcessorRemovesBookends(s: string, pos: nat)
    requires pos <= |s| && Bookends(s, pos) % 2 == 0
    ensures Expand(s, pos, DefaultProcessor) == RemoveBookends(s, pos)
    decreases |s| - pos
  {
    if pos == |s| {
    } else if s[pos] == Bookend {
      assert Bookends(s, pos) == 1 + Bookends(s, pos + 1);
      match FindBookend(s, pos + 1)
      case None =>
        BookendsSkipPlain(s, pos + 1, |s|);
      case Some(j) =>
        BookendsSkipPlain(s, pos + 1, j);
        assert Bookends(s, j) == 1 + Bookends(s, j + 1);
        DefaultProcessorRemovesBookends(s, j + 1);
        RemoveBookendsPlain(s, pos + 1, j);
        assert Expand(s, pos, DefaultProcessor) == s[pos + 1..j] + RemoveBookends(s, j + 1);
        assert RemoveBookends(s, j) == RemoveBookends(s, j + 1);
        assert RemoveBookends(s, pos) == RemoveBookends(s, pos + 1);
    } else {
      assert Bookends(s, pos) == Bookends(s, pos + 1);
      DefaultProcessorRemovesBookends(s, pos + 1);
    }
  }

  lemma {:induction false} RemoveBookendsPlain(s: string, lo: nat, hi: nat)
    requires lo <= hi <= |s| && NoBookend(s, lo, hi)
    ensures RemoveBookends(s, lo) == s[lo..hi] + RemoveBookends(s, hi)
    decreases hi - lo
  {
    if lo < hi {
      RemoveBookendsPlain(s, lo + 1, hi);
      var tail := RemoveBookends(s, hi);
      calc {
        RemoveBookends(s, lo);
        [s[lo]] + RemoveBookends(s, lo + 1);
        [s[lo]] + (s[lo + 1..hi] + tail);
        ([s[lo]] + s[lo + 1..hi]) + tail;
        { assert [s[lo]] + s[lo + 1..hi] == s[lo..hi]; }
        s[lo..hi] + tail;
      }
    } else {
      assert s[lo..hi] == [];
    }
  }

  /** The headers sent before a template body: unknown length, content type, no caching, status 200. */
  function TemplateHeaders(contentType: string): seq<Effect> {
    [SetContentLengthUnknown, SendHeader("Content-Type", contentType, true),
     SendHeader("Cache-Control", "no-cache", false), SendStatus(200)]
  }

  /**
   * The base handler: it holds a configuration object (sharing the record)
   * and accepts no request of its own.
   */
  class RequestHandler {
    const config: ConfigStore

    constructor (config: ConfigStore)
      ensures this.config == config
    {
      this.config := config;
    }

    /** The base handler claims no request. */
    function CanHandle(httpMethod: HttpMethod, uri: string): (accepted: bool)
      ensures !accepted
    {
      false
    }

    /** The base handler handles nothing and sends nothing. */
    method Handle(server: Server) returns (handled: bool)
      ensures !handled
    {
      handled := false;
    }

    /** The request carries the stored user and password. */
    function Authenticate(request: Request): (ok: bool)
      reads config.config
      ensures ok <==> request.authorization == Some(Basic(config.config.Value().credentialsUser,
                                                          config.config.Value().credentialsPassword))
    {
      Authorized(request, config.config.credentialsUser, config.config.credentialsPassword)
    }

    method SendUnauthorizeResponse(server: Server)
      modifies server
      ensures server.out == old(server.out) + [RequestAuthentication]
    {
      server.Emit(RequestAuthentication);
    }

    /**
     * Streams `fileName` as a template: nothing is sent when the file is
     * absent or cannot be opened (`openOk`); otherwise the headers and then
     * exactly the chunks of `Stream` are sent, and the result is whether the
     * stream ended well.
     */
    method SendAsTemplate(fileName: string, contentType: string, server: Server,
                          processor: string -> string, openOk: bool) returns (ok: bool)
      modifies server
      ensures !(fileName in config.fs.files && openOk) ==> !ok && server.out == old(server.out)
      ensures fileName in config.fs.files && openOk ==>
        var o := StreamTemplate(config.fs.files[fileName], processor);
        ok == o.ok && server.out == old(server.out) + TemplateHeaders(contentType) + Sends(o.chunks)
    {
      if !config.fs.Exists(fileName) {
        return false;
      }
      if !openOk {
        return false;
      }
      var text := config.fs.files[fileName];
      server.Emit(SetContentLengthUnknown);
      server.Emit(SendHeader("Content-Type", contentType, true));
      server.Emit(SendHeader("Cache-Control", "no-cache", false));
      server.Emit(SendStatus(200));
      ok := StreamBody(text, server, processor);
    }
  }

  /**
   * Reads a substitution key from `start` on: the characters up to the next
   * bookend (`found`), or to the end of the text when there is none. `pos`
   * is the read position afterwards, just past the closing bookend.
   */
  method ReadKey(text: string, start: nat) returns (keyBuffer: string, pos: nat, found: bool)
    requires start <= |text|
    ensures found ==> FindBookend(text, start) == Some(pos - 1) && start < pos && keyBuffer == text[start..pos - 1]
    ensures !found ==> FindBookend(text, start).None? && pos == |text|
  {
    keyBuffer := "";
    found := false;
    pos := start;
    while !found && pos < |text|
      invariant start <= pos <= |text|
      invariant !found ==> keyBuffer == text[start..pos] && NoBookend(text, start, pos)
      invariant found ==>
        start < pos && text[pos - 1] == Bookend && keyBuffer == text[start..pos - 1] && NoBookend(text, start, pos - 1)
      decreases |text| - pos, !found
    {
      var ch := text[pos];
      pos := pos + 1;
      if ch == Bookend {
        found := true;
      } else {
        keyBuffer := keyBuffer + [ch];
      }
    }
    if found {
      FindBookendFirst(text, start, pos - 1);
    }
  }

  /**
   * The streamer on a bookend at `pos`: the pending text is sent, the key is
   * read, and when it is closed its substitution is sent as well. `next` is
   * the read position after the closing bookend.
   */
  method SendSubstitution(text: string, pos: nat, buffer: string, server: Server, processor: string -> string)
    returns (next: nat, found: bool)
    requires pos < |text| && text[pos] == Bookend
    modifies server
    ensures found ==> FindBookend(text, pos + 1) == Some(next - 1) && pos + 1 < next <= |text|
    ensures found ==>
      server.out == old(server.out) + [SendContent(buffer), SendContent(processor(text[pos + 1..next - 1]))]
    ensures !found ==> FindBookend(text, pos + 1).None? && server.out == old(server.out) + [SendContent(buffer)]
  {
    server.Emit(SendContent(buffer));
    var keyBuffer;
    keyBuffer, next, found := ReadKey(text, pos + 1);
    if found {
      var processed := processor(keyBuffer);
      server.Emit(SendContent(processed));
    }
  }

  /**
   * One pass of the read loop on the character at `pos`: a bookend sends the
   * pending text and the substitution, or fails when it is never closed;
   * another character joins the pending text, which is sent once it is full.
   * `step` is what was sent, and `Stream` from `pos` is `step` followed by
   * `Stream` from the new position with the new pending text.
   */
  method StreamStep(text: string, pos: nat, buffer: string, bufferLen: nat, server: Server, processor: string -> string)
    returns (next: nat, rest: string, restLen: nat, ghost step: seq<Chunk>, failed: bool)
    requires pos < |text| && bufferLen == |buffer| < MaxChunk
    modifies server
    ensures server.out == old(server.out) + Sends(step)
    ensures failed ==> Stream(text, pos, buffer, processor) == Streamed(step, false)
    ensures !failed ==> pos < next <= |text| && restLen == |rest| < MaxChunk
    ensures !failed ==> Stream(text, pos, buffer, processor) == Prepend(step, Stream(text, next, rest, processor))
  {
    var ch := text[pos];
    if ch == Bookend {
      var found;
      next, found := SendSubstitution(text, pos, buffer, server, processor);
      if !found {
        UnclosedStep(text, pos, buffer, processor);
        return next, buffer, bufferLen, [Literal(buffer)], true;
      }
      var key := text[pos + 1..next - 1];
      step := [Literal(buffer), Substitution(key, processor(key))];
      SubstitutionStep(text, pos, buffer, next - 1, processor);
      SendsPair(Literal(buffer), Substitution(key, processor(key)));
      return next, "", 0, step, false;
    }
    rest, restLen := buffer + [ch], bufferLen + 1;
    if restLen >= MaxChunk {
      FlushStep(text, pos, buffer, processor);
      server.Emit(SendContent(rest));
      return pos + 1, "", 0, [Literal(rest)], false;
    }
    BufferStep(text, pos, buffer, processor);
    return pos + 1, rest, restLen, [], false;
  }

  /**
   * The read loop of the streamer: sends exactly the chunks of `Stream` for
   * the whole text and reports whether the stream ended well.
   */
  method StreamBody(text: string, server: Server, processor: string -> string) returns (ok: bool)
    modifies server
    ensures ok == StreamTemplate(text, processor).ok
    ensures server.out == old(server.out) + Sends(StreamTemplate(text, processor).chunks)
  {
    var buffer;
    ghost var sent;
    ok, buffer, sent := StreamChunks(text, server, processor);
    if !ok {
      return;
    }
    EndStep(text, buffer, processor);
    ghost var last := [Literal(buffer), Terminator];
    server.Emit(SendContent(buffer));
    server.Emit(SendContent(""));
    SendsAppend(sent, last);
    SendsPair(Literal(buffer), Terminator);
  }

  /**
   * The characters of the text, one step at a time: `sent` is what went out,
   * and on success `buffer` is the literal text still pending at the end.
   */
  method StreamChunks(text: string, server: Server, processor: string -> string)
    returns (ok: bool, buffer: string, ghost sent: seq<Chunk>)
    modifies server
    ensures server.out == old(server.out) + Sends(sent)
    ensures !ok ==> StreamTemplate(text, processor) == Streamed(sent, false)
    ensures ok ==> Prepend(sent, Stream(text, |text|, buffer, processor)) == StreamTemplate(text, processor)
  {
    sent := [];
    buffer := "";
    var bufferLen := 0;
    var pos := 0;
    while pos < |text|
      invariant 0 <= pos <= |text|
      invariant bufferLen == |buffer| < MaxChunk
      invariant server.out == old(server.out) + Sends(sent)
      invariant Prepend(sent, Stream(text, pos, buffer, processor)) == StreamTemplate(text, processor)
      decreases |text| - pos
    {
      var next, rest, restLen, failed;
      ghost var step;
      next, rest, restLen, step, failed := StreamStep(text, pos, buffer, bufferLen, server, processor);
      SendsAppend(sent, step);
      if failed {
        return false, buffer, sent + step;
      }
      Advance(sent, step, Stream(text, next, rest, processor), StreamTemplate(text, processor));
      sent := sent + step;
      buffer, bufferLen, pos := rest, restLen, next;
    }
    ok := true;
  }
}
