/** Line framing of the JSON-RPC codec: `readLine` and `writeJSON` of internal/rpc/codec.go. */
module Framing {
  import opened Prelude

  type Byte = b: int | 0 <= b < 256

  const NEWLINE: Byte := 10

  const DEFAULT_LIMIT := 1024 * 1024

  /** What reading one line can give; the bytes of a refused line are consumed all the same. */
  datatype Line = EndOfInput | TooLarge | Line(data: seq<Byte>)

  /** The number of bytes up to and including the first newline, or None. */
  function LineLength(input: seq<Byte>): Option<nat> {
    if input == [] then None
    else if input[0] == NEWLINE then Some(1)
    else
      match LineLength(input[1..])
      case None => None
      case Some(n) => Some(n + 1)
  }

  lemma {:induction false} LineLengthBound(input: seq<Byte>)
    ensures LineLength(input).Some? ==> 0 < LineLength(input).value <= |input|
  {
    if input != [] && input[0] != NEWLINE { LineLengthBound(input[1..]); }
  }

  function ReadResult(input: seq<Byte>, limit: int): Line {
    LineLengthBound(input);
    match LineLength(input)
    case None => EndOfInput
    case Some(n) => if n > limit then TooLarge else Line(input[..n])
  }

  function ReadRest(input: seq<Byte>): seq<Byte> {
    LineLengthBound(input);
    match LineLength(input)
    case None => []
    case Some(n) => input[n..]
  }

  function Frame(body: seq<Byte>): seq<Byte> {
    body + [NEWLINE]
  }

  function Frames(bodies: seq<seq<Byte>>): seq<Byte> {
    if bodies == [] then [] else Frame(bodies[0]) + Frames(bodies[1..])
  }

  predicate Fits(body: seq<Byte>, limit: int) {
    |body| + 1 <= limit
  }

  lemma {:induction false} FirstNewline(body: seq<Byte>, rest: seq<Byte>)
    requires NEWLINE !in body
    ensures LineLength(Frame(body) + rest) == Some(|body| + 1)
  {
    if body != [] {
      assert (Frame(body) + rest)[1..] == Frame(body[1..]) + rest;
      FirstNewline(body[1..], rest);
    }
  }

  /** A body is refused on write exactly when its line would be refused on read. */
  lemma SameLimit(body: seq<Byte>, rest: seq<Byte>, limit: int)
    requires NEWLINE !in body
    ensures ReadResult(Frame(body) + rest, limit) == TooLarge <==> !Fits(body, limit)
    ensures Fits(body, limit) ==> ReadResult(Frame(body) + rest, limit) == Line(Frame(body))
    ensures ReadRest(Frame(body) + rest) == rest
  {
    FirstNewline(body, rest);
    assert (Frame(body) + rest)[..|body| + 1] == Frame(body);
  }

  /** A line comes back whole exactly when its body holds no newline. */
  lemma {:induction false} WholeLineExactly(body: seq<Byte>, rest: seq<Byte>)
    ensures LineLength(Frame(body) + rest) == Some(|body| + 1) <==> NEWLINE !in body
  {
    if body != [] {
      assert (Frame(body) + rest)[1..] == Frame(body[1..]) + rest;
      assert body == [body[0]] + body[1..];
      WholeLineExactly(body[1..], rest);
    }
  }

  /** What `count` successive reads give. */
  function ReadMany(input: seq<Byte>, count: nat, limit: int): seq<Line>
    decreases count
  {
    if count == 0 then [] else [ReadResult(input, limit)] + ReadMany(ReadRest(input), count - 1, limit)
  }

  function RestAfter(input: seq<Byte>, count: nat): seq<Byte>
    decreases count
  {
    if count == 0 then input else RestAfter(ReadRest(input), count - 1)
  }

  /** One line per body, whole. */
  function Lines(bodies: seq<seq<Byte>>): seq<Line> {
    seq(|bodies|, i requires 0 <= i < |bodies| => Line(Frame(bodies[i])))
  }

  lemma LinesStep(bodies: seq<seq<Byte>>)
    requires bodies != []
    ensures Lines(bodies) == [Line(Frame(bodies[0]))] + Lines(bodies[1..])
  {
  }

  /** Reading back a written stream gives exactly the bodies written, none refused, and leaves
      what follows them unread. */
  lemma {:induction false} FramingRoundTrip(bodies: seq<seq<Byte>>, rest: seq<Byte>, limit: int)
    requires forall i :: 0 <= i < |bodies| ==> NEWLINE !in bodies[i] && Fits(bodies[i], limit)
    ensures ReadMany(Frames(bodies) + rest, |bodies|, limit) == Lines(bodies)
    ensures RestAfter(Frames(bodies) + rest, |bodies|) == rest
    decreases bodies
  {
    if bodies == [] {
      assert Frames(bodies) + rest == rest;
    } else {
      hide ReadResult, ReadRest, Lines;
      var more := Frames(bodies[1..]) + rest;
      assert Frames(bodies) + rest == Frame(bodies[0]) + more;
      SameLimit(bodies[0], more, limit);
      FramingRoundTrip(bodies[1..], rest, limit);
      LinesStep(bodies);
    }
  }

  class Codec {
    const maxPayloadSize: int
    /** The bytes not read yet, and the bytes written so far. */
    var input: seq<Byte>
    var output: seq<Byte>
    /** The bodies written so far. */
    ghost var written: seq<seq<Byte>>

    ghost predicate Valid()
      reads this
    {
      && maxPayloadSize > 0 && output == Frames(written)
      && forall i :: 0 <= i < |written| ==> Fits(written[i], maxPayloadSize)
    }

    constructor (input: seq<Byte>, limit: int)
      ensures Valid() && this.input == input && written == []
      ensures maxPayloadSize == if limit <= 0 then DEFAULT_LIMIT else limit
    {
      maxPayloadSize := if limit <= 0 then DEFAULT_LIMIT else limit;
      this.input, output, written := input, [], [];
    }

    method WriteJson(data: seq<Byte>) returns (ok: bool)
      requires Valid()
      modifies `output, `written
      ensures Valid()
      ensures ok <==> Fits(data, maxPayloadSize)
      ensures written == if ok then old(written) + [data] else old(written)
    {
      if |data| + 1 > maxPayloadSize { return false; }
      FramesPush(written, data);
      output := output + (data + [NEWLINE]);
      written := written + [data];
      return true;
    }

    /** One line, up to and including its newline. */
    method ReadLine() returns (line: Line)
      requires Valid()
      modifies `input
      ensures Valid()
      ensures line == ReadResult(old(input), maxPayloadSize) && input == ReadRest(old(input))
    {
      var n := 0;
      while n < |input| && input[n] != NEWLINE
        invariant n <= |input| && NEWLINE !in input[..n]
      {
        n := n + 1;
      }
      if n == |input| {
        NoNewline(input);
        input := [];
        return EndOfInput;
      }
      var body, rest := input[..n], input[n + 1..];
      assert input == Frame(body) + rest;
      FirstNewline(body, rest);
      line := if n + 1 > maxPayloadSize then TooLarge else Line(input[..n + 1]);
      input := rest;
    }
  }

  lemma {:induction false} NoNewline(input: seq<Byte>)
    requires NEWLINE !in input
    ensures LineLength(input) == None
  {
    if input != [] { NoNewline(input[1..]); }
  }

  lemma {:induction false} FramesPush(bodies: seq<seq<Byte>>, body: seq<Byte>)
    ensures Frames(bodies + [body]) == Frames(bodies) + Frame(body)
  {
    if bodies == [] {
      assert ([] + [body])[1..] == [];
    } else {
      assert (bodies + [body])[1..] == bodies[1..] + [body];
      FramesPush(bodies[1..], body);
    }
  }
}
