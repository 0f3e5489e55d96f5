/** A writer that passes on a bounded number of bytes. */
module LimitedWriter {
  import opened Options

  type Bytes = seq<bv8>

  datatype Error = LimitExceeded | ShortWrite | SinkError(code: nat) | Wrapped(error: Error)

  /** How an underlying writer answers one write: the bytes it takes, the count it reports, and its error. */
  datatype Answer = Answer(takes: nat, reports: int, error: Option<Error>)

  /** An honest count, or a negative one with nothing taken. */
  predicate Honest(a: Answer, offered: nat) {
    a.takes <= offered && (a.reports == a.takes || (a.takes == 0 && a.reports < 0))
  }

  /** The underlying writer. */
  class Sink {
    var content: Bytes

    constructor ()
      ensures content == []
    {
      content := [];
    }

    method Write(p: Bytes, a: Answer) returns (n: int, err: Option<Error>)
      requires Honest(a, |p|)
      modifies this
      ensures content == old(content) + p[..a.takes] && n == a.reports && err == a.error
    {
      content := content + p[..a.takes];
      n, err := a.reports, a.error;
    }
  }

  function Min(a: int, b: int): int {
    if a < b then a else b
  }

  /** The bytes offered to the underlying writer. */
  function Offered(remaining: int, p: Bytes): nat {
    if remaining <= 0 then 0 else Min(|p|, remaining)
  }

  /** What one write passes on, and the error it finds. */
  function Passed(remaining: int, p: Bytes, a: Answer): (r: (Bytes, Option<Error>))
    requires remaining > 0 ==> Honest(a, Offered(remaining, p))
  {
    if remaining <= 0 then ([], Some(LimitExceeded))
    else
      var offered := Offered(remaining, p);
      (p[..a.takes],
       if a.error.Some? then a.error
       else if a.takes < offered then Some(ShortWrite)
       else if offered < |p| then Some(LimitExceeded)
       else None)
  }

  class Writer {
    const sink: Sink
    var remaining: int
    const converter: Option<Option<Error> -> Option<Error>>

    constructor (sink: Sink, limit: int, converter: Option<Option<Error> -> Option<Error>>)
      ensures this.sink == sink && remaining == limit && this.converter == converter
    {
      this.sink, this.remaining, this.converter := sink, limit, converter;
    }

    function Converted(err: Option<Error>): Option<Error> {
      if converter.Some? then converter.value(err) else err
    }

    method Write(p: Bytes, a: Answer) returns (n: nat, err: Option<Error>)
      requires remaining > 0 ==> Honest(a, Offered(remaining, p))
      modifies this, sink
      ensures old(remaining) <= 0 ==> n == 0 && sink.content == old(sink.content) && err == Converted(Some(LimitExceeded))
      ensures old(remaining) > 0 ==>
        && n == a.takes && sink.content == old(sink.content) + p[..a.takes]
        && err == Converted(if a.error.Some? then a.error
                            else if n < |p| && n < old(remaining) then Some(ShortWrite)
                            else if n < |p| then Some(LimitExceeded)
                            else None)
      ensures var passed := Passed(old(remaining), p, a);
        && sink.content == old(sink.content) + passed.0
        && n == |passed.0| && err == Converted(passed.1)
      ensures remaining + |sink.content| == old(remaining) + |old(sink.content)|
    {
      if remaining <= 0 {
        return 0, Converted(Some(LimitExceeded));
      }
      var writeable := |p|;
      if remaining < writeable {
        writeable := remaining;
      }
      var written, sinkError := sink.Write(p[..writeable], a);
      if written < 0 {
        written := 0;
      }
      assert p[..writeable][..a.takes] == p[..a.takes];
      remaining := remaining - written;
      n := written;
      if sinkError.Some? {
        return n, Converted(sinkError);
      }
      if written < writeable {
        return n, Converted(Some(ShortWrite));
      }
      err := Converted(if writeable < |p| then Some(LimitExceeded) else None);
    }
  }

  // ----- a sequence of writes that stops at the first error

  datatype Run = Run(content: Bytes, remaining: int, error: Option<Error>)

  datatype Request = Request(p: Bytes, a: Answer)

  /** The answer an underlying writer gives when offered fewer bytes than it could take. */
  function Clipped(a: Answer, offered: nat): Answer {
    if a.takes <= offered then a.(reports := a.takes) else Answer(offered, offered, a.error)
  }

  function Writes(remaining: int, requests: seq<Request>): Run
    decreases |requests|
  {
    if requests == [] then Run([], remaining, None)
    else
      var r := requests[0];
      var a := Clipped(r.a, Offered(remaining, r.p));
      var (passed, error) := Passed(remaining, r.p, a);
      if error.Some? then Run(passed, remaining - |passed|, error)
      else
        var rest := Writes(remaining - |passed|, requests[1..]);
        rest.(content := passed + rest.content)
  }

  function Concatenated(requests: seq<Request>): Bytes
    decreases |requests|
  {
    if requests == [] then [] else requests[0].p + Concatenated(requests[1..])
  }

  /**
   What reaches the underlying writer is a prefix of the input, the allowance and the bytes written sum
   up, and a run without error has passed on everything.
   */
  lemma {:induction false} PrefixWritten(remaining: int, requests: seq<Request>)
    ensures var run := Writes(remaining, requests);
      && run.content <= Concatenated(requests)
      && run.remaining + |run.content| == remaining
      && (run.error.None? ==> run.content == Concatenated(requests))
      && (remaining >= 0 ==> |run.content| <= remaining)
    decreases |requests|
  {
    if requests != [] {
      var r := requests[0];
      var a := Clipped(r.a, Offered(remaining, r.p));
      var passed := Passed(remaining, r.p, a);
      assert passed.0 <= r.p;
      PrefixWritten(remaining - |passed.0|, requests[1..]);
      if passed.1.None? {
        assert passed.0 == r.p;
      } else {
        assert passed.0 <= r.p + Concatenated(requests[1..]);
      }
    }
  }

  /** A converter that makes an error of every error keeps the guarantee: no error means nothing was cut off. */
  lemma ConverterKeeps(w: Writer, remaining: int, p: Bytes, a: Answer)
    requires remaining > 0 ==> Honest(a, Offered(remaining, p))
    requires forall e :: w.Converted(e) == None ==> e == None
    ensures w.Converted(Passed(remaining, p, a).1) == None ==> Passed(remaining, p, a).0 == p
  {
  }

  /** A write reports the limit exactly when it cuts something off, or when the allowance was used up before. */
  lemma LimitExact(remaining: int, p: Bytes)
    ensures var offered := Offered(remaining, p);
      Passed(remaining, p, Answer(offered, offered, None)).1 == Some(LimitExceeded) <==> remaining <= 0 || |p| > remaining
  {
  }
}
