/** The carry loop of plugin/plugin.go: an upstream response streamed to OLP as
    a call's parts, its head first and then its body as it is read. */
module Carry {
  import opened Common
  import opened Stdio

  /** Body bytes one part holds at most. */
  const CARRY_CHUNK: nat := 0x1_0000

  type byte = bv8

  /** A body that ends: what each Read returned, the last together with EOF
      when `clean`, and otherwise with an error, such as the one a cancelled
      call's closed body gives. */
  datatype Upstream = Upstream(chunks: seq<seq<byte>>, clean: bool)

  datatype ResultPart<H> = Head(head: H) | Body(bytes: seq<byte>)

  datatype Outcome = Finished | SendFailed | ReadFailed

  /** Every byte that was read. */
  function Received(chunks: seq<seq<byte>>): seq<byte> {
    if chunks == [] then []
    else Received(chunks[..|chunks| - 1]) + chunks[|chunks| - 1]
  }

  /** The parts that the reads become: a read of nothing becomes none. */
  function Bodies<H>(chunks: seq<seq<byte>>): seq<ResultPart<H>> {
    if chunks == [] then []
    else
      Bodies(chunks[..|chunks| - 1]) +
      if chunks[|chunks| - 1] != [] then [Body(chunks[|chunks| - 1])] else []
  }

  /** The bytes that a receiver of the parts puts together. */
  function Assembled<H>(parts: seq<ResultPart<H>>): seq<byte> {
    if parts == [] then []
    else
      var last := parts[|parts| - 1];
      Assembled(parts[..|parts| - 1]) + if last.Body? then last.bytes else []
  }

  function Whole<H>(head: H, body: Option<Upstream>): seq<ResultPart<H>> {
    [Head(head)] + if body.None? then [] else Bodies(body.value.chunks)
  }

  lemma AssembledAppend<H>(parts: seq<ResultPart<H>>, last: ResultPart<H>)
    ensures Assembled(parts + [last]) == Assembled(parts) + if last.Body? then last.bytes else []
  {
    assert (parts + [last])[..|parts|] == parts;
  }

  lemma {:induction false} CarriedBytes<H>(head: H, chunks: seq<seq<byte>>)
    ensures Assembled([Head(head)] + Bodies(chunks)) == Received(chunks)
  {
    if chunks == [] {
      AssembledAppend([], Head(head));
      assert [Head(head)] + Bodies(chunks) == [] + [Head(head)];
    } else {
      var front, last := chunks[..|chunks| - 1], chunks[|chunks| - 1];
      CarriedBytes(head, front);
      hide Assembled;
      if last == [] {
        assert [Head(head)] + Bodies(chunks) == [Head(head)] + Bodies(front);
      } else {
        assert [Head(head)] + Bodies(chunks) == [Head(head)] + Bodies(front) + [Body(last)];
        AssembledAppend([Head(head)] + Bodies(front), Body(last));
      }
    }
  }

  lemma {:induction false} BodiesAreFull<H>(chunks: seq<seq<byte>>)
    ensures forall p :: p in Bodies<H>(chunks) ==> p.Body? && p.bytes != []
  {
    if chunks != [] {
      BodiesAreFull<H>(chunks[..|chunks| - 1]);
    }
  }

  /** The parts sent once the first `i` reads were handled. */
  function Sent<H>(head: H, chunks: seq<seq<byte>>, i: nat): seq<ResultPart<H>>
    requires i <= |chunks|
  {
    [Head(head)] + Bodies(chunks[..i])
  }

  lemma {:induction false} SentGrows<H>(head: H, chunks: seq<seq<byte>>, i: nat)
    requires i < |chunks|
    ensures Sent(head, chunks, i + 1) == Sent(head, chunks, i) + if chunks[i] != [] then [Body(chunks[i])] else []
    ensures Sent(head, chunks, i) <= Sent(head, chunks, i + 1) <= Sent(head, chunks, |chunks|)
    decreases |chunks| - i
  {
    assert chunks[..i + 1][..i] == chunks[..i];
    if i + 1 < |chunks| {
      SentGrows(head, chunks, i + 1);
    }
  }

  // A body part fits its frame.

  function Digits(n: nat): nat {
    if n < 10 then 1 else 1 + Digits(n / 10)
  }

  function Power10(k: nat): nat {
    if k == 0 then 1 else 10 * Power10(k - 1)
  }

  lemma {:induction false} DigitsBound(n: nat, k: nat)
    requires k > 0 && n < Power10(k)
    ensures Digits(n) <= k
  {
    if n >= 10 {
      assert k > 1 by { assert Power10(1) == 10 * Power10(0); }
      DigitsBound(n / 10, k - 1);
    }
  }

  /** Section 4 of RFC 4648: four characters for every three bytes, padded. */
  function Base64Length(n: nat): nat {
    4 * ((n + 2) / 3)
  }

  /** The length of {"id":N,"part":{"body":"..."}}; an id of zero is omitted. */
  function BodyFrameLength(id: nat, n: nat): nat {
    (if id == 0 then |"{\"part\":"| else |"{\"id\":"| + Digits(id) + |",\"part\":"|) +
    |"{\"body\":\""| + Base64Length(n) + |"\"}}"|
  }

  lemma BodyPartFits(id: nat, n: nat)
    requires id < UINT64 && n <= CARRY_CHUNK
    ensures BodyFrameLength(id, n) < MAX_FRAME / 8
  {
    assert Power10(20) == 100_000_000_000_000_000_000 by {
      assert Power10(5) == 100_000;
      assert Power10(10) == 10_000_000_000;
      assert Power10(15) == 1_000_000_000_000_000;
    }
    DigitsBound(id, 20);
  }

  /** How many of `total` parts get through when the head's frame is
      `headLength` long and writing the part numbered `broken` fails, if any. */
  function Accepted(total: nat, headLength: nat, broken: Option<nat>): nat {
    if headLength >= MAX_FRAME then 0
    else if broken.Some? && broken.value < total then broken.value
    else total
  }

  /** sendPart for body bytes: a chunk always fits, so only the write can fail. */
  method SendBody(id: nat, bytes: seq<byte>, number: nat, broken: Option<nat>) returns (ok: bool)
    requires id < UINT64 && |bytes| <= CARRY_CHUNK
    ensures ok <==> broken != Some(number)
  {
    BodyPartFits(id, |bytes|);
    if BodyFrameLength(id, |bytes|) >= MAX_FRAME {
      return false;
    }
    return broken != Some(number);
  }

  /** carry, after the plugin's Carrier returned a response. */
  method Carry<H>(id: nat, head: H, headLength: nat, body: Option<Upstream>, broken: Option<nat>)
    returns (sent: seq<ResultPart<H>>, outcome: Outcome)
    requires id < UINT64
    requires body.Some? ==> body.value.chunks != [] && forall c :: c in body.value.chunks ==> |c| <= CARRY_CHUNK
    ensures sent == Whole(head, body)[..Accepted(|Whole(head, body)|, headLength, broken)]
    ensures sent == [] <==> headLength >= 0x10_0000 || broken == Some(0)
    ensures outcome == Finished <==>
              && headLength < 0x10_0000 && (body.Some? ==> body.value.clean)
              && (broken.Some? ==> broken.value >= |Whole(head, body)|)
    ensures outcome == if |sent| < |Whole(head, body)| then SendFailed
                       else if body.Some? && !body.value.clean then ReadFailed
                       else Finished
  {
    sent := [];
    if headLength >= MAX_FRAME || broken == Some(0) {
      return sent, SendFailed;
    }
    sent := [Head(head)];
    if body.None? {
      return sent, Finished;
    }
    var chunks := body.value.chunks;
    ghost var whole := Sent(head, chunks, |chunks|);
    assert chunks[..|chunks|] == chunks && whole == Whole(head, body);
    var i := 0;
    while true
      invariant 0 <= i < |chunks|
      invariant sent == Sent(head, chunks, i)
      invariant broken.Some? ==> |sent| <= broken.value
      decreases |chunks| - i
    {
      var chunk := chunks[i];
      SentGrows(head, chunks, i);
      if chunk != [] {
        var ok := SendBody(id, chunk, |sent|, broken);
        if !ok {
          return sent, SendFailed;
        }
        sent := sent + [Body(chunk)];
      }
      i := i + 1;
      if i == |chunks| {
        return sent, if body.value.clean then Finished else ReadFailed;
      }
    }
  }

  /** A carried response that finished arrived as its head and then a body whose
      parts put together are exactly the bytes that were read. */
  lemma FinishedCarryIsComplete<H>(head: H, body: Option<Upstream>, sent: seq<ResultPart<H>>)
    requires sent == Whole(head, body)
    ensures sent[0] == Head(head) && (forall p :: p in sent[1..] ==> p.Body? && p.bytes != [])
    ensures Assembled(sent) == if body.None? then [] else Received(body.value.chunks)
  {
    CarriedBytes(head, if body.None? then [] else body.value.chunks);
    BodiesAreFull<H>(if body.None? then [] else body.value.chunks);
    assert sent == [Head(head)] + Bodies(if body.None? then [] else body.value.chunks);
  }
}
