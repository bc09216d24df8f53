/** Length-prefixed frames of crates/kesharon-protocol, and the partial transfers of kesharon-ipc. */
module Framing {
  import opened Wrappers

  newtype Byte = n: int | 0 <= n < 256

  const MAX_FRAME_BYTES: nat := 8 * 1024 * 1024

  datatype FrameError =
    | IncompleteLengthPrefix
    | FrameTooLarge(declared: nat)
    | FrameLengthMismatch(declared: nat, actual: nat)

  /** `u32::to_be_bytes` */
  function BigEndian(n: nat): (bytes: seq<Byte>)
    requires n < 0x1_0000_0000
    ensures |bytes| == 4
  {
    var high := n / 256;
    var higher := high / 256;
    [(higher / 256) as Byte, (higher % 256) as Byte, (high % 256) as Byte, (n % 256) as Byte]
  }

  /** `u32::from_be_bytes` */
  function FromBigEndian(bytes: seq<Byte>): (n: nat)
    requires |bytes| == 4
    ensures n < 0x1_0000_0000
  {
    bytes[0] as nat * 0x100_0000 + bytes[1] as nat * 0x1_0000 + bytes[2] as nat * 256 + bytes[3] as nat
  }

  /** The framing of `encode_frame`, around a payload that is already text. */
  function EncodeFrame(payload: seq<Byte>): Result<seq<Byte>, FrameError> {
    if |payload| > MAX_FRAME_BYTES then Failure(FrameTooLarge(|payload|))
    else Success(BigEndian(|payload|) + payload)
  }

  /** The framing of `decode_frame`. */
  function DecodeFrame(frame: seq<Byte>): Result<seq<Byte>, FrameError> {
    if |frame| < 4 then Failure(IncompleteLengthPrefix)
    else
      var declared, actual := FromBigEndian(frame[..4]), |frame| - 4;
      if declared > MAX_FRAME_BYTES then Failure(FrameTooLarge(declared))
      else if actual != declared then Failure(FrameLengthMismatch(declared, actual))
      else Success(frame[4..])
  }

  lemma BigEndianRoundTrip(n: nat)
    requires n < 0x1_0000_0000
    ensures FromBigEndian(BigEndian(n)) == n
  {
    var high := n / 256;
    var higher := high / 256;
    assert n == 256 * high + n % 256 && high == 256 * higher + high % 256;
    assert higher == 256 * (higher / 256) + higher % 256;
  }

  lemma BigEndianOnto(bytes: seq<Byte>)
    requires |bytes| == 4
    ensures BigEndian(FromBigEndian(bytes)) == bytes
  {
    var n := FromBigEndian(bytes);
    var high := bytes[0] as nat * 0x1_0000 + bytes[1] as nat * 256 + bytes[2] as nat;
    var higher := bytes[0] as nat * 256 + bytes[1] as nat;
    assert n == 256 * high + bytes[3] as nat && high == 256 * higher + bytes[2] as nat;
    assert n / 256 == high && high / 256 == higher && higher / 256 == bytes[0] as nat;
  }

  /** A byte string decodes to a payload exactly when it is that payload's frame. */
  lemma DecodesIffEncoded(frame: seq<Byte>, payload: seq<Byte>)
    ensures DecodeFrame(frame) == Success(payload) <==> EncodeFrame(payload) == Success(frame)
  {
    if EncodeFrame(payload) == Success(frame) {
      BigEndianRoundTrip(|payload|);
      assert frame[..4] == BigEndian(|payload|) && frame[4..] == payload;
    }
    if DecodeFrame(frame) == Success(payload) {
      BigEndianOnto(frame[..4]);
      assert frame == frame[..4] + frame[4..];
    }
  }

  /** A frame is its payload behind four bytes, the highest first, that hold its length. */
  lemma FrameLayout(payload: seq<Byte>, frame: seq<Byte>)
    ensures EncodeFrame(payload) == Success(frame) <==>
              && |payload| <= 8388608 && |frame| == 4 + |payload| && frame[4..] == payload
              && 16777216 * frame[0] as int + 65536 * frame[1] as int + 256 * frame[2] as int + frame[3] as int
                 == |payload|
  {
    if |payload| <= 8388608 {
      BigEndianRoundTrip(|payload|);
      if |frame| == 4 + |payload| && frame[4..] == payload && FromBigEndian(frame[..4]) == |payload| {
        BigEndianOnto(frame[..4]);
        assert frame == frame[..4] + frame[4..];
      }
    }
  }

  /** Which error a byte string that is no frame gets: too short, declaring too much, or not that long. */
  lemma DecodeErrors(frame: seq<Byte>)
    ensures DecodeFrame(frame).Failure? ==>
              DecodeFrame(frame).error ==
              if |frame| < 4 then IncompleteLengthPrefix
              else
                var declared := 16777216 * frame[0] as int + 65536 * frame[1] as int
                                + 256 * frame[2] as int + frame[3] as int;
                if declared > 8388608 then FrameTooLarge(declared)
                else FrameLengthMismatch(declared, |frame| - 4)
  {
  }

  // ---- Many frames on one connection ----

  predicate AllFit(payloads: seq<seq<Byte>>) {
    forall i | 0 <= i < |payloads| :: |payloads[i]| <= MAX_FRAME_BYTES
  }

  /** What writing the frames of `payloads` one after the other puts on the wire. */
  function Wire(payloads: seq<seq<Byte>>): seq<Byte>
    requires AllFit(payloads)
  {
    if payloads == [] then [] else EncodeFrame(payloads[0]).value + Wire(payloads[1..])
  }

  /** Frames are self-delimiting: what follows one cannot change where it ends. */
  lemma FramesArePrefixFree(p: seq<Byte>, after: seq<Byte>, q: seq<Byte>, rest: seq<Byte>)
    requires |p| <= MAX_FRAME_BYTES && |q| <= MAX_FRAME_BYTES
    requires EncodeFrame(p).value + after == EncodeFrame(q).value + rest
    ensures p == q && after == rest
  {
    var wire := EncodeFrame(p).value + after;
    assert wire[..4] == BigEndian(|p|) && wire[..4] == BigEndian(|q|);
    BigEndianRoundTrip(|p|);
    BigEndianRoundTrip(|q|);
    assert wire[4..4 + |p|] == p && wire[4..4 + |q|] == q;
    assert wire[4 + |p|..] == after && wire[4 + |q|..] == rest;
  }

  lemma TakeAndDrop<T>(sent: seq<T>, got: seq<T>)
    requires 0 < |got| <= |sent| && got[0] == sent[0] && got[1..] == sent[1..][..|got| - 1]
    ensures got == sent[..|got|] && sent[1..][|got| - 1..] == sent[|got|..]
  {
    assert got == [got[0]] + got[1..];
  }

  /** A list of payloads is all its wire form can be read as. */
  lemma {:induction false} WireIsUnambiguous(
    sent: seq<seq<Byte>>, unread: seq<Byte>, got: seq<seq<Byte>>, rest: seq<Byte>)
    requires AllFit(sent) && AllFit(got) && |got| <= |sent|
    requires Wire(sent) + unread == Wire(got) + rest
    ensures got == sent[..|got|]
    ensures rest == Wire(sent[|got|..]) + unread
  {
    if got == [] {
      assert sent[0..] == sent;
    } else {
      var p, q := sent[0], got[0];
      assert Wire(sent) + unread == EncodeFrame(p).value + (Wire(sent[1..]) + unread);
      assert Wire(got) + rest == EncodeFrame(q).value + (Wire(got[1..]) + rest);
      FramesArePrefixFree(p, Wire(sent[1..]) + unread, q, Wire(got[1..]) + rest);
      WireIsUnambiguous(sent[1..], unread, got[1..], rest);
      TakeAndDrop(sent, got);
    }
  }

  lemma {:induction false} WireAppend(payloads: seq<seq<Byte>>, p: seq<Byte>)
    requires AllFit(payloads) && |p| <= MAX_FRAME_BYTES
    ensures AllFit(payloads + [p]) && Wire(payloads + [p]) == Wire(payloads) + EncodeFrame(p).value
  {
    if payloads == [] {
      assert [p][1..] == [];
    } else {
      WireAppend(payloads[1..], p);
      assert (payloads + [p])[1..] == payloads[1..] + [p];
    }
  }
}
